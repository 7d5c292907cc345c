/** The terminal's command inspection: a line splitter fed with arbitrary chunks. */
module TerminalLines {
  import opened Text

  const MAX_BUFFER := 8192
  const MAX_CHUNK := 4096

  // ---------------------------------------------------------------- splitting

  /** `split(/\r?\n/)` */
  function Segments(s: string): (r: seq<string>)
    ensures |r| >= 1
  {
    if s == [] then [""]
    else if s[0] == '\n' then [""] + Segments(s[1..])
    else if |s| >= 2 && s[0] == '\r' && s[1] == '\n' then [""] + Segments(s[2..])
    else
      var rest := Segments(s[1..]);
      [[s[0]] + rest[0]] + rest[1..]
  }

  /** The completed lines. */
  function Lines(s: string): seq<string> {
    var r := Segments(s); r[..|r| - 1]
  }

  /** What follows the last line end. */
  function Tail(s: string): string {
    var r := Segments(s); r[|r| - 1]
  }

  /** `slice(-8192)` */
  function Clip(s: string): (r: string)
    ensures |r| <= MAX_BUFFER && (|s| <= MAX_BUFFER ==> r == s)
  {
    if |s| > MAX_BUFFER then s[|s| - MAX_BUFFER..] else s
  }

  // ---------------------------------------------------------------- one chunk

  datatype Policy = Policy(block: bool, maxViolations: nat, matches: string -> bool)

  datatype Session = Session(tail: string, violations: nat)

  predicate Dangerous(p: Policy, segment: string) {
    var candidate := Trim(segment);
    candidate != "" && p.matches(CollapseSpaces(candidate))
  }

  datatype Verdict = Verdict(violations: nat, accepted: bool)

  /** Inspecting lines in turn; blocking stops at the first violation that reaches the limit. */
  function Scan(p: Policy, violations: nat, segments: seq<string>): Verdict
    decreases segments
  {
    if segments == [] then Verdict(violations, true)
    else if !Dangerous(p, segments[0]) then Scan(p, violations, segments[1..])
    else if p.block && violations + 1 >= p.maxViolations then Verdict(violations + 1, false)
    else Scan(p, violations + 1, segments[1..])
  }

  lemma {:induction false} ScanNext(p: Policy, v: nat, segments: seq<string>, i: nat)
    requires i < |segments|
    ensures Scan(p, v, segments[i..]) ==
            if !Dangerous(p, segments[i]) then Scan(p, v, segments[i + 1..])
            else if p.block && v + 1 >= p.maxViolations then Verdict(v + 1, false)
            else Scan(p, v + 1, segments[i + 1..])
  {
    assert segments[i..][1..] == segments[i + 1..];
  }

  function Inspect(p: Policy, s: Session, data: string): (Session, bool) {
    var combined := Clip(s.tail + data);
    var v := Scan(p, s.violations, Lines(combined));
    (Session(Clip(Tail(combined)), v.violations), v.accepted)
  }

  class CommandInspector {
    var commandBuffers: map<string, string>
    var dangerousInputViolations: map<string, nat>
    const policy: Policy

    constructor (policy: Policy)
      ensures this.policy == policy && commandBuffers == map[] && dangerousInputViolations == map[]
    {
      this.policy := policy;
      commandBuffers, dangerousInputViolations := map[], map[];
    }

    function SessionOf(clientId: string): Session
      reads this
    {
      Session(if clientId in commandBuffers then commandBuffers[clientId] else "",
              if clientId in dangerousInputViolations then dangerousInputViolations[clientId] else 0)
    }

    method InspectSubmittedCommands(clientId: string, data: string) returns (accepted: bool)
      modifies this
      ensures (SessionOf(clientId), accepted) == Inspect(policy, old(SessionOf(clientId)), data)
      ensures forall other :: other != clientId ==> SessionOf(other) == old(SessionOf(other))
    {
      var previousTail := if clientId in commandBuffers then commandBuffers[clientId] else "";
      var combined := Clip(previousTail + data);
      var segments := Segments(combined);
      var tail := segments[|segments| - 1];
      segments := segments[..|segments| - 1];
      commandBuffers := commandBuffers[clientId := Clip(tail)];
      accepted := ScanSegments(clientId, segments);
    }

    method Matches(segment: string) returns (matched: bool)
      ensures matched == Dangerous(policy, segment)
    {
      var candidate := Trim(segment);
      if candidate == "" {
        return false;
      }
      var normalized := CollapseSpaces(candidate);
      matched := policy.matches(normalized);
    }

    method CountViolation(clientId: string) returns (violations: nat)
      modifies this`dangerousInputViolations
      ensures violations == old(SessionOf(clientId)).violations + 1
      ensures SessionOf(clientId) == old(SessionOf(clientId)).(violations := violations)
      ensures forall other :: other != clientId ==> SessionOf(other) == old(SessionOf(other))
    {
      violations := 1 + if clientId in dangerousInputViolations then dangerousInputViolations[clientId] else 0;
      dangerousInputViolations := dangerousInputViolations[clientId := violations];
    }

    /** The loop over the completed lines. */
    method ScanSegments(clientId: string, segments: seq<string>) returns (accepted: bool)
      modifies this`dangerousInputViolations
      ensures Verdict(SessionOf(clientId).violations, accepted)
           == Scan(policy, old(SessionOf(clientId)).violations, segments)
      ensures forall other :: other != clientId ==> SessionOf(other) == old(SessionOf(other))
    {
      var i := 0;
      while i < |segments|
        invariant 0 <= i <= |segments|
        invariant forall other :: other != clientId ==> SessionOf(other) == old(SessionOf(other))
        invariant Scan(policy, old(SessionOf(clientId)).violations, segments)
               == Scan(policy, SessionOf(clientId).violations, segments[i..])
      {
        ScanNext(policy, SessionOf(clientId).violations, segments, i);
        var matched := Matches(segments[i]);
        if matched {
          var violations := CountViolation(clientId);
          if policy.block && violations >= policy.maxViolations {
            return false;
          }
        }
        i := i + 1;
      }
      accepted := true;
    }

    method CleanupSession(clientId: string)
      modifies this
      ensures SessionOf(clientId) == Session("", 0)
      ensures forall other :: other != clientId ==> SessionOf(other) == old(SessionOf(other))
    {
      commandBuffers := commandBuffers - {clientId};
      dangerousInputViolations := dangerousInputViolations - {clientId};
    }
  }

  // ---------------------------------------------------------------- laws of splitting

  lemma {:induction false} SingleSegment(s: string)
    ensures |Segments(s)| == 1 <==> '\n' !in s
    ensures '\n' !in s ==> Segments(s) == [s]
  {
    if s != [] {
      assert s == [s[0]] + s[1..];
      SingleSegment(s[1..]);
      if s[0] == '\r' && |s| >= 2 && s[1] == '\n' {
        assert '\n' in s;
      }
    }
  }

  /** The text without a carriage return at its end. */
  function Chomp(s: string): string { if s != "" && s[|s| - 1] == '\r' then s[..|s| - 1] else s }

  /** The first line ends at the first line feed, with or without a carriage return before it; the rest is split by itself. */
  lemma {:induction false} FirstLine(line: string, rest: string)
    requires '\n' !in line
    ensures Segments(line + "\n" + rest) == [Chomp(line)] + Segments(rest)
  {
    var s := line + "\n" + rest;
    if line == "" {
      assert s == "\n" + rest && s[1..] == rest;
    } else {
      var more := line[1..];
      assert s[0] == line[0] && s[1..] == more + "\n" + rest;
      if more == "" {
        assert s[1] == '\n' && s[2..] == rest && s[1..][1..] == rest;
        assert line == [line[0]] && [line[0]] + "" == line;
        assert Segments(s[1..]) == [""] + Segments(rest) && Segments(s[1..])[1..] == Segments(rest);
      } else {
        assert s[1] == line[1];
        FirstLine(more, rest);
        assert Chomp(line) == [line[0]] + Chomp(more);
      }
    }
  }

  lemma {:induction false} TailHasNoNewline(s: string)
    ensures '\n' !in Tail(s)
  {
    if s != [] {
      if s[0] == '\r' && |s| >= 2 && s[1] == '\n' {
        TailHasNoNewline(s[2..]);
      } else {
        TailHasNoNewline(s[1..]);
      }
    }
  }

  /** Appending `t`, seen from the first line end. */
  ghost predicate Splits(s: string, t: string) {
    Segments(s + t) == Lines(s) + Segments(Tail(s) + t)
  }

  lemma {:induction false} SplitsAfterLine(s: string, n: nat, t: string)
    requires n <= |s| && Splits(s[n..], t)
    requires Segments(s) == [""] + Segments(s[n..]) && Segments(s + t) == [""] + Segments(s[n..] + t)
    ensures Splits(s, t)
  {
    JoinEmpty(Segments(s[n..]), Segments(Tail(s[n..]) + t));
  }

  lemma {:induction false} JoinEmpty(r: seq<string>, r': seq<string>)
    requires |r| >= 1
    ensures var s := [""] + r;
            && s[|s| - 1] == r[|r| - 1]
            && s[..|s| - 1] + r' == [""] + (r[..|r| - 1] + r')
  {
    assert ([""] + r)[..|r|] == [""] + r[..|r| - 1];
  }

  lemma {:induction false} SplitsAfterChar(s: string, t: string)
    requires |s| >= 2 && Splits(s[1..], t) && |Segments(s[1..])| > 1
    requires s[0] != '\n' && !(s[0] == '\r' && s[1] == '\n')
    ensures Splits(s, t)
  {
    assert (s + t)[1..] == s[1..] + t && (s + t)[0] == s[0] && (s + t)[1] == s[1];
    JoinFirst(Segments(s[1..]), Segments(Tail(s[1..]) + t), [s[0]]);
  }

  lemma {:induction false} JoinFirst(r: seq<string>, r': seq<string>, c: string)
    requires |r| > 1
    ensures var s, joined := [c + r[0]] + r[1..], r[..|r| - 1] + r';
            && s[|s| - 1] == r[|r| - 1] && |s| == |r|
            && s[..|s| - 1] + r' == [c + joined[0]] + joined[1..]
  {
    var joined := r[..|r| - 1] + r';
    assert joined[1..] == r[1..|r| - 1] + r';
  }

  /** What is split once need not be split again: only the tail meets the next chunk. */
  lemma {:induction false} SegmentsAppend(s: string, t: string)
    ensures Segments(s + t) == Lines(s) + Segments(Tail(s) + t)
  {
    SingleSegment(s);
    if '\n' !in s {
      assert Lines(s) == [] && Tail(s) == s;
    } else if s[0] == '\n' {
      SegmentsAppend(s[1..], t);
      assert (s + t)[1..] == s[1..] + t;
      SplitsAfterLine(s, 1, t);
    } else if s[0] == '\r' && s[1] == '\n' {
      SegmentsAppend(s[2..], t);
      assert (s + t)[2..] == s[2..] + t;
      SplitsAfterLine(s, 2, t);
    } else {
      SingleSegment(s[1..]);
      assert '\n' in s[1..] by { assert s == [s[0]] + s[1..]; }
      SegmentsAppend(s[1..], t);
      SplitsAfterChar(s, t);
    }
  }

  lemma {:induction false} LinesAppend(s: string, t: string)
    ensures Lines(s + t) == Lines(s) + Lines(Tail(s) + t)
    ensures Tail(s + t) == Tail(Tail(s) + t)
  {
    SegmentsAppend(s, t);
  }

  /** Losing the first characters of an unfinished line loses them from that line only. */
  lemma {:induction false} SegmentsDrop(q: string, d: string, k: nat)
    requires '\n' !in q && k < |q|
    ensures var r := Segments(q + d);
            k <= |r[0]| && Segments((q + d)[k..]) == [r[0][k..]] + r[1..]
  {
    var r := Segments(q + d);
    if k == 0 {
      assert (q + d)[0..] == q + d;
      assert r == [r[0]] + r[1..];
    } else {
      assert (q + d)[1..] == q[1..] + d;
      assert (q + d)[0] == q[0] && (q + d)[1] == q[1];
      SegmentsDrop(q[1..], d, k - 1);
      assert (q + d)[1..][k - 1..] == (q + d)[k..];
      assert r[0][k..] == r[0][1..][k - 1..];
    }
  }

  // ---------------------------------------------------------------- runs of one session

  /** A session fed with chunks: its state, the lines handed to the inspection, and which chunks it refused. */
  datatype Trace = Trace(session: Session, submitted: seq<string>, refused: seq<bool>)

  function Feed(p: Policy, tr: Trace, data: string): Trace {
    var (session, accepted) := Inspect(p, tr.session, data);
    Trace(session, tr.submitted + Lines(Clip(tr.session.tail + data)), tr.refused + [!accepted])
  }

  function Run(p: Policy, chunks: seq<string>): (tr: Trace)
    ensures |tr.refused| == |chunks|
  {
    if chunks == [] then Trace(Session("", 0), [], [])
    else Feed(p, Run(p, chunks[..|chunks| - 1]), chunks[|chunks| - 1])
  }

  function Concat(chunks: seq<string>): string {
    if chunks == [] then "" else Concat(chunks[..|chunks| - 1]) + chunks[|chunks| - 1]
  }

  /** No chunk ever meets an unfinished line too long to share the buffer with it. */
  predicate WithinBuffer(chunks: seq<string>) {
    chunks == [] ||
    var init, last := chunks[..|chunks| - 1], chunks[|chunks| - 1];
    WithinBuffer(init) && |Tail(Concat(init))| + |last| <= 8192
  }

  /** The session has seen exactly the lines of the stream. */
  ghost predicate Faithful(tr: Trace, stream: string) {
    tr.submitted == Lines(stream) && tr.session.tail == Tail(stream)
  }

  /** The session has dropped some characters from the front of the stream's unfinished line. */
  ghost predicate Dropped(tr: Trace, stream: string, k: nat) {
    && |tr.submitted| == |Lines(stream)|
    && k <= |Tail(stream)| && (k > 0 ==> k < |Tail(stream)|)
    && tr.session.tail == Tail(stream)[k..]
    && |tr.session.tail| <= MAX_BUFFER
  }

  lemma {:induction false} TailShort(s: string)
    ensures |Tail(s)| <= |s|
  {
    if s != [] {
      if s[0] == '\r' && |s| >= 2 && s[1] == '\n' { TailShort(s[2..]); } else { TailShort(s[1..]); }
    }
  }

  lemma {:induction false} FeedWithin(p: Policy, tr: Trace, stream: string, data: string)
    requires Faithful(tr, stream) && |Tail(stream)| + |data| <= MAX_BUFFER
    ensures Faithful(Feed(p, tr, data), stream + data)
  {
    LinesAppend(stream, data);
    TailShort(tr.session.tail + data);
  }

  /** How much of the stream's unfinished line is gone when `data` arrives. */
  function Gone(tail: string, k: nat, data: string): nat
    requires k <= |tail|
  {
    if |tail| - k + |data| > MAX_BUFFER then |tail| + |data| - MAX_BUFFER else k
  }

  lemma {:induction false} ClipIsDrop(tail: string, k: nat, data: string)
    requires k <= |tail| && |tail| - k <= MAX_BUFFER && |data| <= MAX_CHUNK
    ensures var m := Gone(tail, k, data);
            && m <= |tail| && (m > k ==> m < |tail|) && k <= m
            && Clip(tail[k..] + data) == (tail + data)[m..]
  {}

  lemma {:induction false} SegmentsGone(stream: string, data: string, m: nat)
    requires m == 0 || m < |Tail(stream)|
    ensures var q := Tail(stream);
            var r := Segments(q + data);
            && m <= |r[0]| && m <= |q| && Segments((q + data)[m..]) == [r[0][m..]] + r[1..]
            && (|r| == 1 <==> '\n' !in data) && (|r| == 1 ==> r == [q + data])
  {
    var q := Tail(stream);
    var r := Segments(q + data);
    TailHasNoNewline(stream);
    SingleSegment(q + data);
    if m == 0 {
      assert (q + data)[0..] == q + data;
      assert r == [r[0][0..]] + r[1..];
    } else {
      SegmentsDrop(q, data, m);
    }
  }

  /** The new trace after a chunk, from what is gone of the unfinished line. */
  lemma {:induction false} FeedDropped(p: Policy, tr: Trace, stream: string, k: nat, data: string) returns (k': nat)
    requires Dropped(tr, stream, k) && |data| <= MAX_CHUNK
    ensures Dropped(Feed(p, tr, data), stream + data, k')
    ensures var m := Gone(Tail(stream), k, data);
            var tr' := Feed(p, tr, data);
            && k' == (if '\n' in data then 0 else m)
            && ((tr'.submitted == Lines(stream + data) && k' == 0) <==> (tr.submitted == Lines(stream) && m == 0))
  {
    var q := Tail(stream);
    var m := Gone(q, k, data);
    ClipIsDrop(q, k, data);
    LinesAppend(stream, data);
    SegmentsGone(stream, data, m);
    var r := Segments(q + data);
    var combined := Clip(tr.session.tail + data);
    TailShort(combined);
    k' := if '\n' in data then 0 else m;
    if '\n' in data {
      SplitTails(r, Segments(combined), m);
      LinesDiffer(tr.submitted, Lines(stream), Lines(q + data), m);
    } else {
      assert Lines(combined) == [] && Lines(q + data) == [];
      assert tr.submitted + [] == tr.submitted && Lines(stream) + [] == Lines(stream);
    }
  }

  lemma {:induction false} SplitTails(r: seq<string>, r': seq<string>, m: nat)
    requires |r| > 1 && m <= |r[0]| && r' == [r[0][m..]] + r[1..]
    ensures r'[|r'| - 1] == r[|r| - 1]
    ensures r'[..|r'| - 1] == [r[..|r| - 1][0][m..]] + r[..|r| - 1][1..]
  {}

  lemma {:induction false} LinesDiffer(a: seq<string>, b: seq<string>, next: seq<string>, m: nat)
    requires |a| == |b| && |next| >= 1 && m <= |next[0]|
    ensures a + ([next[0][m..]] + next[1..]) == b + next <==> a == b && m == 0
  {
    var x := a + ([next[0][m..]] + next[1..]);
    var y := b + next;
    assert x[..|a|] == a && y[..|b|] == b && x[|a|] == next[0][m..] && y[|a|] == next[0];
    if a == b && m == 0 {
      assert next[0][0..] == next[0];
      assert [next[0]] + next[1..] == next;
    }
  }

  /**
    Whatever the chunks, no line is gained or lost; and the session sees exactly the lines and the
    unfinished line of the whole stream if and only if the buffer was never too short.
  */
  lemma {:induction false} ChunkIndependence(p: Policy, chunks: seq<string>) returns (k: nat)
    requires forall i :: 0 <= i < |chunks| ==> |chunks[i]| <= MAX_CHUNK
    ensures Dropped(Run(p, chunks), Concat(chunks), k)
    ensures Run(p, chunks).submitted == Lines(Concat(chunks)) && k == 0 <==> WithinBuffer(chunks)
    ensures Faithful(Run(p, chunks), Concat(chunks)) <==> WithinBuffer(chunks)
  {
    if chunks == [] {
      k := 0;
    } else {
      var init, last := chunks[..|chunks| - 1], chunks[|chunks| - 1];
      var k0 := ChunkIndependence(p, init);
      k := FeedDropped(p, Run(p, init), Concat(init), k0, last);
    }
  }

  /** A stream that ends its last line is handed over line by line exactly when the buffer sufficed. */
  lemma {:induction false} CompletedStream(p: Policy, chunks: seq<string>)
    requires forall i :: 0 <= i < |chunks| ==> |chunks[i]| <= MAX_CHUNK
    requires Tail(Concat(chunks)) == ""
    ensures Run(p, chunks).submitted == Lines(Concat(chunks)) <==> WithinBuffer(chunks)
  {
    var k := ChunkIndependence(p, chunks);
  }

  /** Chunks of any size: while the buffer suffices, the session sees the lines of the stream. */
  lemma {:induction false} WithinIsFaithful(p: Policy, chunks: seq<string>)
    requires WithinBuffer(chunks)
    ensures Faithful(Run(p, chunks), Concat(chunks))
  {
    if chunks != [] {
      var init, last := chunks[..|chunks| - 1], chunks[|chunks| - 1];
      WithinIsFaithful(p, init);
      FeedWithin(p, Run(p, init), Concat(init), last);
    }
  }

  lemma {:induction false} EndsLine(s: string)
    ensures Tail(s + "\n") == ""
  {
    var t := s + "\n";
    if s == [] {
      assert t == "\n" && t[1..] == [];
    } else if s[0] == '\r' && t[1] == '\n' {
      if |s| >= 2 {
        assert t[2..] == s[2..] + "\n";
        EndsLine(s[2..]);
      } else {
        assert t[2..] == [] && Segments(t) == [""] + Segments([]);
      }
    } else {
      assert t[1..] == s[1..] + "\n";
      EndsLine(s[1..]);
    }
  }

  /** `n` times the letter x. */
  function Xs(n: nat): string { seq(n, _ => 'x') }

  /** A line of 8192 characters and its end in a chunk of its own: the line handed over has lost a character. */
  lemma {:induction false} OverlongLine(p: Policy)
    ensures var chunks := [Xs(4096), Xs(4096), "\n"];
            && !WithinBuffer(chunks) && Run(p, chunks).submitted != Lines(Concat(chunks))
            && (forall i :: 0 <= i < 3 ==> |chunks[i]| <= MAX_CHUNK)
  {
    var x, chunks := Xs(4096), [Xs(4096), Xs(4096), "\n"];
    assert chunks[..2] == [x, x] && [x, x][..1] == [x] && [x][..0] == [];
    assert Concat([x]) == x by { assert "" + x == x; }
    assert Concat([x, x]) == x + x;
    SingleSegment(x + x);
    assert Tail(x + x) == x + x;
    EndsLine(x + x);
    CompletedStream(p, chunks);
  }

  /** A line is dangerous exactly if something but white space is on it and the patterns match what is left without the white space around it. */
  lemma {:induction false} DangerousMeans(p: Policy, pre: string, core: string, post: string)
    requires AllSpace(pre) && IsTrimmed(core) && AllSpace(post)
    ensures Dangerous(p, pre + core + post) <==> core != "" && p.matches(CollapseSpaces(core))
  {
    TrimOf(pre, core, post);
  }

  // ---------------------------------------------------------------- what the loop looks at

  /** The lines the loop looks at before it ends or refuses. */
  function Looked(p: Policy, violations: nat, segments: seq<string>): seq<string>
    decreases segments
  {
    if segments == [] then []
    else if !Dangerous(p, segments[0]) then [segments[0]] + Looked(p, violations, segments[1..])
    else if p.block && violations + 1 >= p.maxViolations then [segments[0]]
    else [segments[0]] + Looked(p, violations + 1, segments[1..])
  }

  /** All of them in an accepted chunk; in a refused one those up to a dangerous line. */
  lemma {:induction false} LookedAt(p: Policy, v: nat, segments: seq<string>)
    ensures Looked(p, v, segments) <= segments
    ensures Scan(p, v, segments).accepted ==> Looked(p, v, segments) == segments
    ensures !Scan(p, v, segments).accepted ==>
              var looked := Looked(p, v, segments); looked != [] && Dangerous(p, looked[|looked| - 1])
    decreases segments
  {
    if segments != [] {
      var first, rest := segments[0], segments[1..];
      assert segments == [first] + rest;
      if Dangerous(p, first) && p.block && v + 1 >= p.maxViolations {
        assert Looked(p, v, segments) == [first];
      } else {
        var v' := if Dangerous(p, first) then v + 1 else v;
        LookedAt(p, v', rest);
        assert Looked(p, v, segments) == [first] + Looked(p, v', rest);
      }
    }
  }

  /** The lines inspected over a run. */
  function Inspected(p: Policy, chunks: seq<string>): seq<string> {
    if chunks == [] then []
    else
      var init, last := chunks[..|chunks| - 1], chunks[|chunks| - 1];
      var s := Run(p, init).session;
      Inspected(p, init) + Looked(p, s.violations, Lines(Clip(s.tail + last)))
  }

  /** As long as no chunk is refused, every line handed over is inspected; in audit mode that is always so. */
  lemma {:induction false} AllInspected(p: Policy, chunks: seq<string>)
    requires forall i :: 0 <= i < |chunks| ==> !Run(p, chunks).refused[i]
    ensures Inspected(p, chunks) == Run(p, chunks).submitted
  {
    if chunks != [] {
      var init, last := chunks[..|chunks| - 1], chunks[|chunks| - 1];
      var s := Run(p, init).session;
      assert forall i :: 0 <= i < |init| ==> Run(p, init).refused[i] == Run(p, chunks).refused[i];
      AllInspected(p, init);
      LookedAt(p, s.violations, Lines(Clip(s.tail + last)));
      assert !Run(p, chunks).refused[|init|];
    }
  }

  // ---------------------------------------------------------------- violations

  function Violations(p: Policy, lines: seq<string>): nat {
    if lines == [] then 0
    else Violations(p, lines[1..]) + (if Dangerous(p, lines[0]) then 1 else 0)
  }

  lemma {:induction false} ViolationsAppend(p: Policy, a: seq<string>, b: seq<string>)
    ensures Violations(p, a + b) == Violations(p, a) + Violations(p, b)
  {
    if a == [] {
      assert a + b == b;
    } else {
      assert (a + b)[1..] == a[1..] + b;
      ViolationsAppend(p, a[1..], b);
    }
  }

  /** The scan, from the number of dangerous lines alone. */
  lemma {:induction false} ScanCounts(p: Policy, v: nat, segments: seq<string>)
    decreases segments
    ensures var d := Violations(p, segments);
            var r := Scan(p, v, segments);
            && (r.accepted <==> !p.block || d == 0 || v + d < p.maxViolations)
            && (r.accepted ==> r.violations == v + d)
            && (!r.accepted ==> r.violations == if v + 1 >= p.maxViolations then v + 1 else p.maxViolations)
  {
    if segments != [] {
      ScanCounts(p, if Dangerous(p, segments[0]) then v + 1 else v, segments[1..]);
    }
  }

  /** In audit mode nothing is refused, and the count is that of the dangerous lines of the stream. */
  lemma {:induction false} AuditCounts(p: Policy, chunks: seq<string>)
    requires !p.block && WithinBuffer(chunks)
    ensures Run(p, chunks).session.violations == Violations(p, Lines(Concat(chunks)))
    ensures forall i :: 0 <= i < |chunks| ==> !Run(p, chunks).refused[i]
  {
    if chunks != [] {
      var init, last := chunks[..|chunks| - 1], chunks[|chunks| - 1];
      AuditCounts(p, init);
      WithinIsFaithful(p, init);
      StreamViolations(p, init, last);
      var tr := Run(p, init);
      ScanCounts(p, tr.session.violations, Lines(tr.session.tail + last));
    }
  }

  lemma {:induction false} StreamViolations(p: Policy, init: seq<string>, last: string)
    ensures var stream := Concat(init);
            Violations(p, Lines(stream + last)) == Violations(p, Lines(stream)) + Violations(p, Lines(Tail(stream) + last))
  {
    LinesAppend(Concat(init), last);
    ViolationsAppend(p, Lines(Concat(init)), Lines(Tail(Concat(init)) + last));
  }

  /** How many dangerous lines the stream of the first `i` chunks has completed. */
  function ViolationsBy(p: Policy, chunks: seq<string>, i: nat): nat
    requires i <= |chunks|
  {
    Violations(p, Lines(Concat(chunks[..i])))
  }

  /** The chunk that completes a dangerous line, when the limit is reached with it. */
  predicate Completes(p: Policy, chunks: seq<string>, i: nat)
    requires i < |chunks|
  {
    && ViolationsBy(p, chunks, i) < ViolationsBy(p, chunks, i + 1)
    && p.maxViolations <= ViolationsBy(p, chunks, i + 1)
  }

  lemma {:induction false} CompletesPrefix(p: Policy, chunks: seq<string>, i: nat)
    requires i + 1 < |chunks|
    ensures Completes(p, chunks, i) == Completes(p, chunks[..|chunks| - 1], i)
  {
    var init := chunks[..|chunks| - 1];
    assert init[..i] == chunks[..i] && init[..i + 1] == chunks[..i + 1];
  }

  /** The count a blocking session keeps: exact below the limit, and at least the limit from then on. */
  predicate Tracks(p: Policy, v: nat, d: nat) {
    if d == 0 || d < p.maxViolations then v == d else v >= p.maxViolations
  }

  lemma {:induction false} BlockStep(p: Policy, init: seq<string>, last: string)
    requires p.block && WithinBuffer(init) && |Tail(Concat(init))| + |last| <= MAX_BUFFER
    ensures var tr, tr' := Run(p, init), Feed(p, Run(p, init), last);
            var d, d' := Violations(p, Lines(Concat(init))), Violations(p, Lines(Concat(init) + last));
            Tracks(p, tr.session.violations, d) ==>
              && Tracks(p, tr'.session.violations, d')
              && (tr'.refused[|init|] <==> d < d' && p.maxViolations <= d')
  {
    WithinIsFaithful(p, init);
    StreamViolations(p, init, last);
    var tr := Run(p, init);
    ScanCounts(p, tr.session.violations, Lines(tr.session.tail + last));
  }

  lemma {:induction false} BlockTracks(p: Policy, chunks: seq<string>)
    requires p.block && WithinBuffer(chunks)
    ensures Tracks(p, Run(p, chunks).session.violations, Violations(p, Lines(Concat(chunks))))
  {
    if chunks != [] {
      BlockTracks(p, chunks[..|chunks| - 1]);
      BlockStep(p, chunks[..|chunks| - 1], chunks[|chunks| - 1]);
    }
  }

  lemma {:induction false} RefusedPrefix(p: Policy, chunks: seq<string>, i: nat)
    requires i + 1 < |chunks|
    ensures Run(p, chunks).refused[i] == Run(p, chunks[..|chunks| - 1]).refused[i]
  {}

  lemma {:induction false} LastRefused(p: Policy, chunks: seq<string>)
    requires p.block && chunks != [] && WithinBuffer(chunks)
    ensures Run(p, chunks).refused[|chunks| - 1] <==> Completes(p, chunks, |chunks| - 1)
  {
    var init, last := chunks[..|chunks| - 1], chunks[|chunks| - 1];
    BlockTracks(p, init);
    BlockStep(p, init, last);
    assert chunks[..|init| + 1] == chunks;
  }

  /**
    In block mode a chunk is refused exactly when it completes a dangerous line and the stream has by
    then completed at least as many as the limit.
  */
  lemma {:induction false} BlockRefuses(p: Policy, chunks: seq<string>, i: nat)
    requires p.block && WithinBuffer(chunks) && i < |chunks|
    ensures Run(p, chunks).refused[i] <==> Completes(p, chunks, i)
  {
    if i < |chunks| - 1 {
      BlockRefuses(p, chunks[..|chunks| - 1], i);
      CompletesPrefix(p, chunks, i);
      RefusedPrefix(p, chunks, i);
    } else {
      LastRefused(p, chunks);
    }
  }

  /** In block mode some chunk is refused exactly when the stream has enough dangerous lines. */
  lemma {:induction false} EverRefused(p: Policy, chunks: seq<string>)
    requires p.block && WithinBuffer(chunks)
    ensures true in Run(p, chunks).refused <==>
            var d := Violations(p, Lines(Concat(chunks))); d > 0 && d >= p.maxViolations
  {
    if chunks != [] {
      var init, last := chunks[..|chunks| - 1], chunks[|chunks| - 1];
      EverRefused(p, init);
      BlockTracks(p, init);
      BlockStep(p, init, last);
      StreamViolations(p, init, last);
      var r, r' := Run(p, init).refused, Run(p, chunks).refused;
      assert r' == r + [r'[|init|]];
    }
  }

  /**
    Two ways to cut one stream that both fit the buffer hand over the same lines and keep the same tail;
    in audit mode they inspect all of them and count the same, in block mode both refuse or neither does.
  */
  lemma {:induction false} SameStream(p: Policy, a: seq<string>, b: seq<string>)
    requires WithinBuffer(a) && WithinBuffer(b) && Concat(a) == Concat(b)
    ensures Run(p, a).submitted == Run(p, b).submitted && Run(p, a).session.tail == Run(p, b).session.tail
    ensures !p.block ==> Run(p, a).session == Run(p, b).session && Inspected(p, a) == Inspected(p, b) == Run(p, a).submitted
    ensures p.block ==> (true in Run(p, a).refused <==> true in Run(p, b).refused)
  {
    WithinIsFaithful(p, a);
    WithinIsFaithful(p, b);
    if p.block {
      EverRefused(p, a);
      EverRefused(p, b);
    } else {
      AuditCounts(p, a);
      AuditCounts(p, b);
      AllInspected(p, a);
      AllInspected(p, b);
    }
  }
}
