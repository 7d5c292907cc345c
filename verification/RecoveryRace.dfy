/** Overlapping uses of recovery codes: `consumeRecoveryCode` reads the user's list and writes it back whole. */
module RecoveryRace {
  import Mfa

  /** A request has read the list and matched one of its hashes, has written it back, or found no match. */
  datatype Phase = Matched(hashes: seq<string>, i: nat) | Used | Refused

  /** `used` counts each hash as often as a request has succeeded with it. */
  datatype State = State(user: Mfa.User, used: multiset<string>, requests: map<int, Phase>)

  datatype Event = Read(h: int, code: string) | Write(h: int)

  function PhaseOf(s: State, h: int): Phase { if h in s.requests then s.requests[h] else Refused }

  predicate WellFormed(p: Phase) { p.Matched? ==> p.i < |p.hashes| }

  /** One step; an event that is not possible in the state changes nothing. */
  function Step(cfg: Mfa.Config, s: State, e: Event): State {
    match e
    case Read(h, code) =>
      if h in s.requests then s
      else
        var i := Mfa.RecoveryIndex(cfg, s.user, code);
        s.(requests := s.requests[h := if i.Some? then Matched(s.user.recovery, i.value) else Refused])
    case Write(h) =>
      if !PhaseOf(s, h).Matched? || !WellFormed(PhaseOf(s, h)) then s
      else
        var Matched(hashes, i) := PhaseOf(s, h);
        State(s.user.(recovery := Mfa.Spliced(hashes, i)), s.used + multiset{hashes[i]}, s.requests[h := Used])
  }

  function After(cfg: Mfa.Config, user: Mfa.User, run: seq<Event>): State {
    if run == [] then State(user, multiset{}, map[])
    else Step(cfg, After(cfg, user, run[..|run| - 1]), run[|run| - 1])
  }

  /** Taken in a row, the two steps use up the first hash the code matches, as the sequential model does. */
  lemma {:induction false} AloneIsConsume(cfg: Mfa.Config, s: State, h: int, code: string)
    requires h !in s.requests
    ensures var i, s' := Mfa.RecoveryIndex(cfg, s.user, code), Step(cfg, Step(cfg, s, Read(h, code)), Write(h));
            && s'.user == (if i.Some? then s.user.(recovery := Mfa.Spliced(s.user.recovery, i.value)) else s.user)
            && (PhaseOf(s', h).Used? <==> i.Some?)
  {}

  /** The one event that can break the count: the list is read, and matched, before another request has written it back. */
  predicate Overlaps(cfg: Mfa.Config, s: State, e: Event) {
    && e.Read? && e.h !in s.requests && Mfa.RecoveryIndex(cfg, s.user, e.code).Some?
    && exists k :: k in s.requests && s.requests[k].Matched?
  }

  predicate NoOverlap(cfg: Mfa.Config, user: Mfa.User, run: seq<Event>) {
    run == [] ||
    (NoOverlap(cfg, user, run[..|run| - 1]) && !Overlaps(cfg, After(cfg, user, run[..|run| - 1]), run[|run| - 1]))
  }

  /** One request at most is between its read and its write, and it has read the list as it is. */
  ghost predicate Inv(user: Mfa.User, s: State) {
    && multiset(user.recovery) == multiset(s.user.recovery) + s.used
    && (forall h :: h in s.requests && s.requests[h].Matched? ==> WellFormed(s.requests[h]) && s.requests[h].hashes == s.user.recovery)
    && (forall h, k :: h in s.requests && k in s.requests && s.requests[h].Matched? && s.requests[k].Matched? ==> h == k)
  }

  lemma {:induction false} StepKeepsInv(cfg: Mfa.Config, user: Mfa.User, s: State, e: Event)
    requires Inv(user, s) && !Overlaps(cfg, s, e)
    ensures Inv(user, Step(cfg, s, e))
  {
    if e.Write? && PhaseOf(s, e.h).Matched? {
      Mfa.SplicedOne(PhaseOf(s, e.h).hashes, PhaseOf(s, e.h).i);
    }
  }

  lemma {:induction false} RunKeepsInv(cfg: Mfa.Config, user: Mfa.User, run: seq<Event>)
    requires NoOverlap(cfg, user, run)
    ensures Inv(user, After(cfg, user, run))
  {
    if run != [] {
      RunKeepsInv(cfg, user, run[..|run| - 1]);
      StepKeepsInv(cfg, user, After(cfg, user, run[..|run| - 1]), run[|run| - 1]);
    }
  }

  /** In every interleaving the codes stored are those left and those used, if no read that matches comes before a write that is due. */
  lemma {:induction false} CodesConserved(cfg: Mfa.Config, user: Mfa.User, run: seq<Event>)
    requires NoOverlap(cfg, user, run)
    ensures var s := After(cfg, user, run); multiset(user.recovery) == multiset(s.user.recovery) + s.used
  {
    RunKeepsInv(cfg, user, run);
  }

  /**
    The condition is exact: after every run without one, such a read and the two writes leave one code
    too many, among those left and those used, for those stored at first.
  */
  lemma {:induction false} OverlapGainsCode(cfg: Mfa.Config, user: Mfa.User, run: seq<Event>, e: Event) returns (k: int)
    requires NoOverlap(cfg, user, run) && Overlaps(cfg, After(cfg, user, run), e)
    ensures var s := After(cfg, user, run + [e] + [Write(k)] + [Write(e.h)]);
            k != e.h && PhaseOf(s, k).Used? && PhaseOf(s, e.h).Used? && |s.user.recovery| + |s.used| == |user.recovery| + 1
  {
    var s := After(cfg, user, run);
    RunKeepsInv(cfg, user, run);
    k :| k in s.requests && s.requests[k].Matched?;
    AfterSnoc(cfg, user, run, e);
    AfterSnoc(cfg, user, run + [e], Write(k));
    AfterSnoc(cfg, user, run + [e] + [Write(k)], Write(e.h));
    assert |multiset(user.recovery)| == |user.recovery| && |multiset(s.user.recovery)| == |s.user.recovery|;
  }

  lemma {:induction false} AfterSnoc(cfg: Mfa.Config, user: Mfa.User, run: seq<Event>, e: Event)
    ensures After(cfg, user, run + [e]) == Step(cfg, After(cfg, user, run), e)
  {
    assert (run + [e])[..|run|] == run;
  }
}
