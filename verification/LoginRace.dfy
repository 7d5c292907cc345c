/** Overlapping logins of one email: the lock is tested before the password is, and the failure counted after it. */
module LoginRace {
  import opened Outcomes
  import L = Lockout

  datatype Phase = Passed | Done

  datatype State = State(account: L.Account, requests: map<int, Phase>)

  /** A request tests the lock and the captcha, and later counts its failure or clears the keys. */
  datatype Event =
    | Check(h: int, now: int, captchaOk: bool)
    | Fail(h: int, now: int)
    | Clear(h: int, now: int)

  const Initial := State(L.NoKeys, map[])

  predicate HasPassed(s: State, h: int) { h in s.requests && s.requests[h].Passed? }

  predicate CaptchaDemanded(cfg: L.Config, a: L.Account, now: int) {
    cfg.captchaThreshold.Some? && L.Count(a.fail, now) >= cfg.captchaThreshold.value
  }

  /** One step; an event that is not possible in the state changes nothing. */
  function Step(cfg: L.Config, s: State, e: Event): State {
    match e
    case Check(h, now, captchaOk) =>
      if h in s.requests then s
      else
        var refused := L.Locked(cfg, s.account.lock, now) || (CaptchaDemanded(cfg, s.account, now) && !captchaOk);
        s.(requests := s.requests[h := if refused then Done else Passed])
    case Fail(h, now) =>
      if !HasPassed(s, h) then s else State(L.RegisterFailed(cfg, s.account, now).0, s.requests[h := Done])
    case Clear(h, now) =>
      if !HasPassed(s, h) then s else State(L.Account(None, None, s.account.streak), s.requests[h := Done])
  }

  function After(cfg: L.Config, run: seq<Event>): State {
    if run == [] then Initial else Step(cfg, After(cfg, run[..|run| - 1]), run[|run| - 1])
  }

  predicate Monotone(run: seq<Event>) {
    forall i, j :: 0 <= i < j < |run| ==> run[i].now <= run[j].now
  }

  /** Taken in a row, the two steps are one sequential login. */
  lemma {:induction false} AloneIsLogin(cfg: L.Config, s: State, h: int, t: L.Attempt)
    requires h !in s.requests
    ensures var s' := Step(cfg, Step(cfg, s, Check(h, t.now, t.captchaOk)), if t.valid then Clear(h, t.now) else Fail(h, t.now));
            s'.account == L.Login(cfg, s.account, t).0 && !HasPassed(s', h)
  {}

  /** A failure is counted while the lock is reported. */
  predicate CountsUnderLock(cfg: L.Config, s: State, e: Event) {
    e.Fail? && HasPassed(s, e.h) && L.Locked(cfg, s.account.lock, e.now)
  }

  /** The one event that can lead to it: a failure locks while another request has passed the test. */
  predicate Overtakes(cfg: L.Config, s: State, e: Event) {
    && e.Fail? && HasPassed(s, e.h) && L.RegisterFailed(cfg, s.account, e.now).1.LockedOut?
    && exists k :: k != e.h && k in s.requests && s.requests[k].Passed?
  }

  predicate NoOvertaking(cfg: L.Config, run: seq<Event>) {
    run == [] || (NoOvertaking(cfg, run[..|run| - 1]) && !Overtakes(cfg, After(cfg, run[..|run| - 1]), run[|run| - 1]))
  }

  /** Whoever has passed the test would pass it again. */
  ghost predicate StillOpen(cfg: L.Config, s: State, clock: int) {
    forall h :: HasPassed(s, h) ==> !L.Locked(cfg, s.account.lock, clock)
  }

  lemma {:induction false} StepStaysOpen(cfg: L.Config, s: State, e: Event, clock: int)
    requires StillOpen(cfg, s, e.now) && !Overtakes(cfg, s, e) && e.now <= clock
    ensures StillOpen(cfg, Step(cfg, s, e), clock)
  {
    var s' := Step(cfg, s, e);
    forall h | HasPassed(s', h) ensures !L.Locked(cfg, s'.account.lock, clock) {
      assert h != e.h ==> HasPassed(s, h);
    }
  }

  lemma {:induction false} RunStaysOpen(cfg: L.Config, run: seq<Event>, clock: int)
    requires Monotone(run) && NoOvertaking(cfg, run) && (run != [] ==> run[|run| - 1].now <= clock)
    ensures StillOpen(cfg, After(cfg, run), clock)
  {
    if run != [] {
      RunStaysOpen(cfg, run[..|run| - 1], run[|run| - 1].now);
      StepStaysOpen(cfg, After(cfg, run[..|run| - 1]), run[|run| - 1], clock);
    }
  }

  /**
    In every interleaving of logins no failure is counted under a lock, if no failure ever locks while
    another request has passed the test of the lock.
  */
  lemma {:induction false} NothingCountedUnderLock(cfg: L.Config, run: seq<Event>, e: Event)
    requires Monotone(run + [e]) && NoOvertaking(cfg, run)
    ensures !CountsUnderLock(cfg, After(cfg, run), e)
  {
    assert forall i :: 0 <= i < |run| ==> run[i] == (run + [e])[i];
    assert (run + [e])[|run|] == e;
    RunStaysOpen(cfg, run, e.now);
  }

  /**
    The condition is exact: from every run, such a failure is followed, at the same time, by one that is
    counted under the lock, and locks again with more failures than the limit.
  */
  lemma {:induction false} OvertakingCountsUnderLock(cfg: L.Config, run: seq<Event>, e: Event) returns (k: int)
    requires L.ValidConfig(cfg) && cfg.ttlFloor <= 1000 && Overtakes(cfg, After(cfg, run), e)
    ensures CountsUnderLock(cfg, After(cfg, run + [e]), Fail(k, e.now))
    ensures var (a, told) := L.RegisterFailed(cfg, After(cfg, run + [e]).account, e.now);
            told.LockedOut? && a.fail.Some? && a.fail.value.count > cfg.maxAttempts
  {
    var s := After(cfg, run);
    assert (run + [e])[..|run|] == run;
    k :| k != e.h && k in s.requests && s.requests[k].Passed?;
    var s' := Step(cfg, s, e);
    assert HasPassed(s', k);
    L.LockLengths(cfg, L.Count(s.account.streak, e.now) + 1);
  }
}
