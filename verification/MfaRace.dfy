/** Overlapping verifications of one MFA challenge: the key-store calls of `verifyAdminMfa` as steps of any number of requests. */
module MfaRace {
  import Mfa

  /** What a request finds: the right code, a wrong one, another fingerprint, or an error that counts nothing. */
  datatype Verdict = Match | Miss | Mismatch | Fault

  datatype Phase = Reading | Right | Wrong | Closing | Accepted | Rejected

  /** Whether the challenge key is there, the attempt counter, and the requests. */
  datatype State = State(live: bool, attempts: nat, requests: map<int, Phase>)

  datatype Event =
    | Get(h: int)
    | Judge(h: int, verdict: Verdict)
    | Count(h: int)
    | Close(h: int)
    | Expire

  const Initial := State(true, 0, map[])

  function PhaseOf(s: State, h: int): Phase { if h in s.requests then s.requests[h] else Rejected }

  function Move(s: State, h: int, p: Phase): State { s.(requests := s.requests[h := p]) }

  function Judged(v: Verdict): Phase {
    match v case Match => Right case Miss => Wrong case Mismatch => Closing case Fault => Rejected
  }

  /** One step; an event that is not possible in the state changes nothing. `Close` deletes both keys. */
  function Step(max: nat, s: State, e: Event): State {
    match e
    case Get(h) => if h in s.requests then s else Move(s, h, if s.live then Reading else Rejected)
    case Judge(h, verdict) => if !PhaseOf(s, h).Reading? then s else Move(s, h, Judged(verdict))
    case Count(h) =>
      if !PhaseOf(s, h).Wrong? then s
      else Move(s.(attempts := s.attempts + 1), h, if s.attempts + 1 >= max then Closing else Rejected)
    case Close(h) =>
      if PhaseOf(s, h).Right? then Move(s.(live := false, attempts := 0), h, Accepted)
      else if PhaseOf(s, h).Closing? then Move(s.(live := false, attempts := 0), h, Rejected)
      else s
    case Expire => s.(live := false)
  }

  function After(max: nat, run: seq<Event>): State {
    if run == [] then Initial else Step(max, After(max, run[..|run| - 1]), run[|run| - 1])
  }

  lemma {:induction false} AfterSnoc(max: nat, run: seq<Event>, e: Event)
    ensures After(max, run + [e]) == Step(max, After(max, run), e)
  {
    assert (run + [e])[..|run|] == run;
  }

  // ---------------------------------------------------------------- one request on its own

  /** The counter as an `INCR` at `now` would find it. */
  function Seen(s: Mfa.State, id: string, now: int): nat {
    if id in s.attempts && now < s.attempts[id].expires then s.attempts[id].count else 0
  }

  /** What a verification of challenge `id` finds in the sequential model. */
  function VerdictOf(cfg: Mfa.Config, s: Mfa.State, id: string, fingerprint: string, code: string, now: int): Verdict
    requires Mfa.Live(s, id, now)
  {
    var c := s.challenges[id];
    if c.fingerprint != fingerprint then Mismatch
    else if c.userId !in s.users || !s.users[c.userId].active then Fault
    else
      var user := s.users[c.userId];
      var check := Mfa.CodeCheck(cfg, c, user, code, now);
      if check.None? then Fault
      else if check.value || (c.mode.Totp? && Mfa.RecoveryIndex(cfg, user, code).Some?) then Match
      else Miss
  }

  /** The calls of one request in a row. */
  function Alone(max: nat, s: State, h: int, v: Verdict): State {
    Step(max, Step(max, Step(max, Step(max, s, Get(h)), Judge(h, v)), Count(h)), Close(h))
  }

  lemma {:induction false} AfterAlone(max: nat, s: State, h: int, v: Verdict)
    requires h !in s.requests && s.live
    ensures var s' := Alone(max, s, h, v);
            && PhaseOf(s', h) == (if v.Match? then Accepted else Rejected)
            && s'.live == (v.Fault? || (v.Miss? && s.attempts + 1 < max))
            && s'.attempts == if v.Fault? then s.attempts else if s'.live then s.attempts + 1 else 0
  {}

  lemma {:induction false} AfterMiss(cfg: Mfa.Config, s: Mfa.State, id: string, now: int)
    requires cfg.ttlSeconds >= 1 && Mfa.Live(s, id, now)
    ensures var (s', told) := Mfa.Miss(cfg, s, id, now);
            && told == (if Seen(s, id, now) + 1 < cfg.maxAttempts then Mfa.WrongCode else Mfa.TooManyAttempts)
            && Mfa.Live(s', id, now) == told.WrongCode?
            && Seen(s', id, now) == if told.WrongCode? then Seen(s, id, now) + 1 else 0
  {}

  /** Taken in a row, the calls do to the two keys what one sequential verification does, and accept when it succeeds. */
  lemma {:induction false} AloneIsVerify(cfg: Mfa.Config, s: Mfa.State, id: string, fingerprint: string, code: string, now: int,
                                         race: State, h: int)
    requires cfg.ttlSeconds >= 1 && Mfa.Live(s, id, now)
    requires race.live && race.attempts == Seen(s, id, now) && h !in race.requests
    ensures var (s', told) := Mfa.VerifyMfa(cfg, s, id, fingerprint, code, now);
            var race' := Alone(cfg.maxAttempts, race, h, VerdictOf(cfg, s, id, fingerprint, code, now));
            && race'.live == Mfa.Live(s', id, now) && race'.attempts == Seen(s', id, now)
            && (PhaseOf(race', h).Accepted? <==> told.Success?)
  {
    AfterAlone(cfg.maxAttempts, race, h, VerdictOf(cfg, s, id, fingerprint, code, now));
    AfterMiss(cfg, s, id, now);
  }

  // ---------------------------------------------------------------- successes

  /** The request may still succeed. */
  predicate Open(p: Phase) { p.Reading? || p.Right? }

  /** The one event that can lead to two successes: the challenge is read while another request may still succeed. */
  predicate Overlaps(s: State, e: Event) {
    e.Get? && e.h !in s.requests && s.live && exists k :: k in s.requests && Open(s.requests[k])
  }

  predicate NoOverlap(max: nat, run: seq<Event>) {
    run == [] || (NoOverlap(max, run[..|run| - 1]) && !Overlaps(After(max, run[..|run| - 1]), run[|run| - 1]))
  }

  predicate Claims(s: State, h: int) { h in s.requests && (Open(s.requests[h]) || s.requests[h].Accepted?) }

  ghost predicate OneClaim(s: State) {
    && (forall h, k :: Claims(s, h) && Claims(s, k) ==> h == k)
    && (s.live ==> forall h :: Claims(s, h) ==> Open(s.requests[h]))
  }

  lemma {:induction false} StepKeepsClaim(max: nat, s: State, e: Event)
    requires OneClaim(s) && !Overlaps(s, e)
    ensures OneClaim(Step(max, s, e))
  {
    var s' := Step(max, s, e);
    if e.Get? && e.h !in s.requests && s.live {
      forall h ensures Claims(s', h) ==> h == e.h { assert h != e.h && Claims(s', h) ==> Claims(s, h); }
    } else {
      forall h ensures Claims(s', h) ==> Claims(s, h) {}
    }
  }

  lemma {:induction false} RunKeepsClaim(max: nat, run: seq<Event>)
    requires NoOverlap(max, run)
    ensures OneClaim(After(max, run))
  {
    if run != [] {
      RunKeepsClaim(max, run[..|run| - 1]);
      StepKeepsClaim(max, After(max, run[..|run| - 1]), run[|run| - 1]);
    }
  }

  predicate Succeeded(s: State, h: int) { PhaseOf(s, h).Accepted? }

  /**
    In every interleaving of verifications of one challenge one succeeds at most, if the challenge is
    never read while another request may still succeed.
  */
  lemma {:induction false} OneSuccessAtMost(max: nat, run: seq<Event>, h: int, k: int)
    requires NoOverlap(max, run) && Succeeded(After(max, run), h) && Succeeded(After(max, run), k)
    ensures h == k
  {
    RunKeepsClaim(max, run);
    assert Claims(After(max, run), h) && Claims(After(max, run), k);
  }

  lemma {:induction false} OpenSucceeds(max: nat, run: seq<Event>, h: int) returns (more: seq<Event>)
    requires Open(PhaseOf(After(max, run), h))
    ensures var s' := After(max, run + more);
            Succeeded(s', h) && forall k :: k != h ==> PhaseOf(s', k) == PhaseOf(After(max, run), k)
  {
    more := [Judge(h, Match), Close(h)];
    AfterSnoc(max, run, Judge(h, Match));
    AfterSnoc(max, run + [Judge(h, Match)], Close(h));
    assert run + more == run + [Judge(h, Match)] + [Close(h)];
  }

  lemma {:induction false} Associate(a: seq<Event>, b: seq<Event>, c: seq<Event>)
    ensures a + (b + c) == a + b + c
  {}

  /** The condition is exact: from every run, such a read has a continuation in which both requests succeed. */
  lemma {:induction false} OverlapLetsTwoSucceed(max: nat, run: seq<Event>, e: Event) returns (more: seq<Event>, k: int)
    requires Overlaps(After(max, run), e)
    ensures k != e.h && Succeeded(After(max, run + [e] + more), e.h) && Succeeded(After(max, run + [e] + more), k)
  {
    var s := After(max, run);
    k :| k in s.requests && Open(s.requests[k]);
    AfterSnoc(max, run, e);
    var first := OpenSucceeds(max, run + [e], e.h);
    var second := OpenSucceeds(max, run + [e] + first, k);
    more := first + second;
    Associate(run + [e], first, second);
  }

  // ---------------------------------------------------------------- wrong codes

  predicate Evaluates(s: State, e: Event) { e.Judge? && e.verdict.Miss? && PhaseOf(s, e.h).Reading? }

  /** How many wrong codes have been evaluated. */
  function Evaluated(max: nat, run: seq<Event>): nat {
    if run == [] then 0
    else Evaluated(max, run[..|run| - 1]) + (if Evaluates(After(max, run[..|run| - 1]), run[|run| - 1]) then 1 else 0)
  }

  lemma {:induction false} EvaluatedSnoc(max: nat, run: seq<Event>, e: Event)
    ensures Evaluated(max, run + [e]) == Evaluated(max, run) + (if Evaluates(After(max, run), e) then 1 else 0)
  {
    assert (run + [e])[..|run|] == run;
  }

  /** The requests that have read the challenge and not yet judged their code. */
  function Readers(s: State): set<int> { set h | h in s.requests && s.requests[h].Reading? }

  /** The one event that can lead past the limit: another request reads when those that have may use it up. */
  predicate Crowds(max: nat, s: State, evaluated: nat, e: Event) {
    e.Get? && e.h !in s.requests && s.live && evaluated + |Readers(s)| >= max
  }

  predicate NoCrowding(max: nat, run: seq<Event>) {
    run == [] ||
    (NoCrowding(max, run[..|run| - 1]) &&
     !Crowds(max, After(max, run[..|run| - 1]), Evaluated(max, run[..|run| - 1]), run[|run| - 1]))
  }

  lemma {:induction false} ReadersStep(max: nat, s: State, e: Event)
    ensures Readers(Step(max, s, e)) ==
            if e.Get? && e.h !in s.requests && s.live then Readers(s) + {e.h}
            else if e.Judge? && PhaseOf(s, e.h).Reading? then Readers(s) - {e.h}
            else Readers(s)
  {}

  lemma {:induction false} RoomForReaders(max: nat, run: seq<Event>)
    requires NoCrowding(max, run)
    ensures Evaluated(max, run) + |Readers(After(max, run))| <= max
  {
    if run == [] {
      assert Readers(Initial) == {};
    } else {
      var before, e := run[..|run| - 1], run[|run| - 1];
      RoomForReaders(max, before);
      ReadersStep(max, After(max, before), e);
    }
  }

  /** In every interleaving at most `max` wrong codes are evaluated, if no read comes when the readers may use up the limit. */
  lemma {:induction false} WrongCodesBounded(max: nat, run: seq<Event>)
    requires NoCrowding(max, run)
    ensures Evaluated(max, run) <= max
  {
    RoomForReaders(max, run);
  }

  lemma {:induction false} NoReaders(s: State)
    requires forall h :: h in s.requests ==> !s.requests[h].Reading?
    ensures |Readers(s)| == 0
  {
    assert forall h: int :: h !in Readers(s);
    assert Readers(s) !! Readers(s);
  }

  /** Every reader may turn out to be wrong. */
  lemma {:induction false} AllWrong(max: nat, run: seq<Event>) returns (more: seq<Event>)
    ensures forall i :: 0 <= i < |more| ==> more[i].Judge? && more[i].verdict.Miss?
    ensures Evaluated(max, run + more) == Evaluated(max, run) + |Readers(After(max, run))|
    decreases |Readers(After(max, run))|
  {
    var s := After(max, run);
    more := [];
    assert run + [] == run;
    if h: int :| h in s.requests && s.requests[h].Reading? {
      var e := Judge(h, Miss);
      AfterSnoc(max, run, e);
      EvaluatedSnoc(max, run, e);
      ReadersStep(max, s, e);
      assert |Readers(s) - {h}| == |Readers(s)| - 1;
      var rest := AllWrong(max, run + [e]);
      more := [e] + rest;
      Associate(run, [e], rest);
    } else {
      NoReaders(s);
    }
  }

  /** The condition is exact: from every run, such a read has a continuation with more than `max` wrong codes evaluated. */
  lemma {:induction false} CrowdingExceeds(max: nat, run: seq<Event>, e: Event) returns (more: seq<Event>)
    requires Crowds(max, After(max, run), Evaluated(max, run), e)
    ensures forall i :: 0 <= i < |more| ==> more[i].Judge? && more[i].verdict.Miss?
    ensures Evaluated(max, run + [e] + more) > max
  {
    var s := After(max, run);
    AfterSnoc(max, run, e);
    EvaluatedSnoc(max, run, e);
    ReadersStep(max, s, e);
    assert e.h !in Readers(s);
    assert |Readers(s) + {e.h}| == |Readers(s)| + 1;
    more := AllWrong(max, run + [e]);
  }

  // ---------------------------------------------------------------- one after the other

  predicate InFlight(p: Phase) { p.Reading? || p.Right? || p.Wrong? || p.Closing? }

  predicate Waits(s: State, e: Event) {
    e.Get? && e.h !in s.requests ==> forall k :: k in s.requests ==> !InFlight(s.requests[k])
  }

  /** Every request reads after all earlier ones have come to their end. */
  predicate OneByOne(max: nat, run: seq<Event>) {
    run == [] || (OneByOne(max, run[..|run| - 1]) && Waits(After(max, run[..|run| - 1]), run[|run| - 1]))
  }

  /** While the challenge lives the counter is exact, but for a wrong code not yet counted, and below the limit until it is closed. */
  ghost predicate InOrder(max: nat, s: State, evaluated: nat) {
    && (forall h, k :: h in s.requests && k in s.requests && InFlight(s.requests[h]) && InFlight(s.requests[k]) ==> h == k)
    && (s.live ==>
          && (forall h :: h in s.requests && s.requests[h].Wrong? ==> evaluated == s.attempts + 1)
          && ((forall h :: h in s.requests ==> !s.requests[h].Wrong?) ==> evaluated == s.attempts)
          && ((forall h :: h in s.requests ==> !s.requests[h].Closing?) ==> s.attempts < max))
  }

  lemma {:induction false} OnlyInFlight(s: State, h: int)
    requires forall h, k :: h in s.requests && k in s.requests && InFlight(s.requests[h]) && InFlight(s.requests[k]) ==> h == k
    requires InFlight(PhaseOf(s, h))
    ensures forall k :: k in s.requests && k != h ==> !InFlight(s.requests[k])
  {}

  lemma {:induction false} StepInOrder(max: nat, s: State, evaluated: nat, e: Event)
    requires InOrder(max, s, evaluated) && Waits(s, e)
    ensures InOrder(max, Step(max, s, e), evaluated + (if Evaluates(s, e) then 1 else 0))
  {
    var s' := Step(max, s, e);
    if !e.Expire? && InFlight(PhaseOf(s, e.h)) {
      OnlyInFlight(s, e.h);
      assert forall k :: k in s'.requests && k != e.h ==> !InFlight(s'.requests[k]);
      assert e.h in s'.requests;
    }
  }

  lemma {:induction false} RunInOrder(max: nat, run: seq<Event>)
    requires max >= 1 && OneByOne(max, run)
    ensures InOrder(max, After(max, run), Evaluated(max, run))
  {
    if run != [] {
      RunInOrder(max, run[..|run| - 1]);
      StepInOrder(max, After(max, run[..|run| - 1]), Evaluated(max, run[..|run| - 1]), run[|run| - 1]);
    }
  }

  /** That is what the attempt counter achieves: requests one after the other never crowd. */
  lemma {:induction false} OneByOneNeverCrowds(max: nat, run: seq<Event>)
    requires max >= 1 && OneByOne(max, run)
    ensures NoCrowding(max, run)
  {
    if run != [] {
      var before, e := run[..|run| - 1], run[|run| - 1];
      OneByOneNeverCrowds(max, before);
      RunInOrder(max, before);
      if e.Get? && e.h !in After(max, before).requests {
        NoReaders(After(max, before));
      }
    }
  }
}
