/** MFA challenges: a challenge key and an attempt counter, each with its own expiry. */
module Mfa {
  import opened Outcomes
  import opened Text

  /** `totp` and `compare` stand for `verifyTotpCode` with window 1, `None` if it throws, and `bcrypt.compare`. */
  datatype Config = Config(ttlSeconds: nat, maxAttempts: nat,
                           totp: (string, string, int) -> Option<bool>, compare: (string, string) -> bool)

  datatype Mode = Totp | Temporary(code: string)

  datatype Challenge = Challenge(userId: string, fingerprint: string, mode: Mode, expires: int)

  datatype Counter = Counter(count: nat, expires: int)

  datatype User = User(active: bool, secret: Option<string>, recovery: seq<string>)

  datatype State = State(challenges: map<string, Challenge>, attempts: map<string, Counter>, users: map<string, User>)

  datatype Event =
    | Issue(now: int, id: string, userId: string, fingerprint: string, mode: Mode)
    | Verify(now: int, id: string, fingerprint: string, code: string)
    | SetUser(now: int, userId: string, user: User)

  datatype Outcome =
    | Done | NoChallenge | FingerprintMismatch | UserInactive | SecretFault | WrongCode | TooManyAttempts | Success(usedRecovery: Option<string>)

  // ---------------------------------------------------------------- recovery codes

  predicate IsAlnum(c: char) { '0' <= c <= '9' || 'a' <= c <= 'z' || 'A' <= c <= 'Z' }

  function OnlyAlnum(s: string): string {
    if s == [] then []
    else if IsAlnum(s[0]) then [s[0]] + OnlyAlnum(s[1..]) else OnlyAlnum(s[1..])
  }

  function NormalizeRecoveryCode(input: string): string { ToUpper(OnlyAlnum(RemoveSpaces(input))) }

  predicate IsDigitOrUpper(n: int) { 48 <= n <= 57 || 65 <= n <= 90 }

  /** Normalizing goes character by character: digits and upper-case letters stay, lower-case letters are raised, the rest is dropped. */
  lemma {:induction false} NormalizedCharacters(s: string, c: char)
    ensures NormalizeRecoveryCode("") == ""
    ensures var n := c as int;
            NormalizeRecoveryCode([c] + s) ==
              (if IsDigitOrUpper(n) then [c] else if 97 <= n <= 122 then [(n - 32) as char] else "") + NormalizeRecoveryCode(s)
  {
    assert ([c] + s)[1..] == s;
    var spaceless := RemoveSpaces([c] + s);
    if !IsSpace(c) {
      assert spaceless == [c] + RemoveSpaces(s) && spaceless[1..] == RemoveSpaces(s);
      var kept := OnlyAlnum(spaceless);
      if IsAlnum(c) {
        assert kept == [c] + OnlyAlnum(RemoveSpaces(s)) && kept[1..] == OnlyAlnum(RemoveSpaces(s));
      }
    }
  }

  /** The index of the first hash that the code matches. */
  function FirstMatch(cfg: Config, normalized: string, hashes: seq<string>): (r: Option<nat>)
    ensures r.Some? ==> r.value < |hashes| && cfg.compare(normalized, hashes[r.value])
    ensures forall j :: 0 <= j < (if r.Some? then r.value else |hashes|) ==> !cfg.compare(normalized, hashes[j])
  {
    if hashes == [] then None
    else if cfg.compare(normalized, hashes[0]) then Some(0)
    else
      var rest := FirstMatch(cfg, normalized, hashes[1..]);
      if rest.Some? then Some(rest.value + 1) else None
  }

  /** The hash a code would use up. */
  function RecoveryIndex(cfg: Config, user: User, code: string): (r: Option<nat>)
    ensures r.Some? ==> r.value < |user.recovery|
  {
    var normalized := NormalizeRecoveryCode(code);
    if |normalized| < 8 then None else FirstMatch(cfg, normalized, user.recovery)
  }

  function Spliced(hashes: seq<string>, i: nat): seq<string>
    requires i < |hashes|
  {
    hashes[..i] + hashes[i + 1..]
  }

  // ---------------------------------------------------------------- one step

  predicate Live(s: State, id: string, now: int) { id in s.challenges && now < s.challenges[id].expires }

  function Closed(s: State, id: string): State {
    s.(challenges := s.challenges - {id}, attempts := s.attempts - {id})
  }

  /** Whether the code is the challenge's own; `None` if the user's secret makes the check throw. */
  function CodeCheck(cfg: Config, c: Challenge, user: User, code: string, now: int): Option<bool> {
    match c.mode
    case Totp =>
      if user.secret.None? || user.secret.value == "" then Some(false) else cfg.totp(user.secret.value, code, now)
    case Temporary(expected) => Some(expected != "" && expected == code)
  }

  function Miss(cfg: Config, s: State, id: string, now: int): (State, Outcome) {
    var seen := if id in s.attempts && now < s.attempts[id].expires then s.attempts[id].count else 0;
    var expires := if seen > 0 then s.attempts[id].expires else now + 1000 * cfg.ttlSeconds;
    if seen + 1 >= cfg.maxAttempts then (Closed(s, id), TooManyAttempts)
    else (s.(attempts := s.attempts[id := Counter(seen + 1, expires)]), WrongCode)
  }

  function VerifyMfa(cfg: Config, s: State, id: string, fingerprint: string, code: string, now: int): (State, Outcome) {
    if !Live(s, id, now) then (s, NoChallenge)
    else
      var c := s.challenges[id];
      if c.fingerprint != fingerprint then (Closed(s, id), FingerprintMismatch)
      else if c.userId !in s.users || !s.users[c.userId].active then (s, UserInactive)
      else
        var user := s.users[c.userId];
        var recovery := if c.mode.Totp? then RecoveryIndex(cfg, user, code) else None;
        var check := CodeCheck(cfg, c, user, code, now);
        if check.None? then (s, SecretFault)
        else if check.value then (Closed(s, id), Success(None))
        else if recovery.Some? then
          var s' := s.(users := s.users[c.userId := user.(recovery := Spliced(user.recovery, recovery.value))]);
          (Closed(s', id), Success(Some(user.recovery[recovery.value])))
        else Miss(cfg, s, id, now)
  }

  function Step(cfg: Config, s: State, e: Event): (State, Outcome) {
    match e
    case Issue(now, id, userId, fingerprint, mode) =>
      (s.(challenges := s.challenges[id := Challenge(userId, fingerprint, mode, now + 1000 * cfg.ttlSeconds)]), Done)
    case Verify(now, id, fingerprint, code) => VerifyMfa(cfg, s, id, fingerprint, code, now)
    case SetUser(_, userId, user) => (s.(users := s.users[userId := user]), Done)
  }

  class MfaService {
    const cfg: Config
    var challenges: map<string, Challenge>
    var attempts: map<string, Counter>
    var users: map<string, User>

    constructor (cfg: Config)
      ensures this.cfg == cfg && Contents() == State(map[], map[], map[])
    {
      this.cfg := cfg;
      challenges, attempts, users := map[], map[], map[];
    }

    function Contents(): State
      reads this
    {
      State(challenges, attempts, users)
    }

    /** The end of `login` for an account with MFA. */
    method IssueChallenge(id: string, userId: string, fingerprint: string, mode: Mode, now: int)
      modifies this`challenges
      ensures Contents() == Step(cfg, old(Contents()), Issue(now, id, userId, fingerprint, mode)).0
    {
      challenges := challenges[id := Challenge(userId, fingerprint, mode, now + 1000 * cfg.ttlSeconds)];
    }

    method ConsumeRecoveryCode(userId: string, code: string) returns (consumed: Option<string>)
      modifies this`users
      ensures userId !in old(users) ==> consumed == None && users == old(users)
      ensures userId in old(users) ==>
                var user := old(users)[userId];
                var i := RecoveryIndex(cfg, user, code);
                && (i.None? ==> consumed == None && users == old(users))
                && (i.Some? ==>
                      && consumed == Some(user.recovery[i.value])
                      && users == old(users)[userId := user.(recovery := Spliced(user.recovery, i.value))])
    {
      var normalized := NormalizeRecoveryCode(code);
      if |normalized| < 8 || userId !in users {
        return None;
      }
      var hashes := users[userId].recovery;
      var i := 0;
      while i < |hashes|
        invariant 0 <= i <= |hashes|
        invariant forall j :: 0 <= j < i ==> !cfg.compare(normalized, hashes[j])
        invariant users == old(users)
      {
        if cfg.compare(normalized, hashes[i]) {
          users := users[userId := users[userId].(recovery := hashes[..i] + hashes[i + 1..])];
          return Some(hashes[i]);
        }
        i := i + 1;
      }
      consumed := None;
    }

    method RecordMiss(id: string, now: int) returns (r: Outcome)
      modifies this`challenges, this`attempts
      ensures (Contents(), r) == Miss(cfg, old(Contents()), id, now)
    {
      var count := 1 + if id in attempts && now < attempts[id].expires then attempts[id].count else 0;
      var expires := if count == 1 then now + 1000 * cfg.ttlSeconds else attempts[id].expires;
      attempts := attempts[id := Counter(count, expires)];
      if count >= cfg.maxAttempts {
        challenges, attempts := challenges - {id}, attempts - {id};
        assert attempts == old(attempts) - {id};
        return TooManyAttempts;
      }
      r := WrongCode;
    }

    method VerifyAdminMfa(id: string, fingerprint: string, code: string, now: int) returns (r: Outcome)
      modifies this
      ensures (Contents(), r) == VerifyMfa(cfg, old(Contents()), id, fingerprint, code, now)
    {
      if id !in challenges || now >= challenges[id].expires {
        return NoChallenge;
      }
      var payload := challenges[id];
      if payload.fingerprint != fingerprint {
        challenges, attempts := challenges - {id}, attempts - {id};
        return FingerprintMismatch;
      }
      if payload.userId !in users || !users[payload.userId].active {
        return UserInactive;
      }
      var check := CodeCheck(cfg, payload, users[payload.userId], code, now);
      if check.None? {
        return SecretFault;
      }
      var isValid := check.value;
      var used: Option<string> := None;
      if !isValid && payload.mode.Totp? {
        used := ConsumeRecoveryCode(payload.userId, code);
        isValid := used.Some?;
      }
      if !isValid {
        r := RecordMiss(id, now);
        return;
      }
      challenges, attempts := challenges - {id}, attempts - {id};
      r := Success(used);
    }
  }

  // ---------------------------------------------------------------- runs

  const Empty := State(map[], map[], map[])

  function After(cfg: Config, run: seq<Event>): State {
    if run == [] then Empty else Step(cfg, After(cfg, run[..|run| - 1]), run[|run| - 1]).0
  }

  function Told(cfg: Config, run: seq<Event>): Outcome
    requires run != []
  {
    Step(cfg, After(cfg, run[..|run| - 1]), run[|run| - 1]).1
  }

  function Issued(run: seq<Event>): set<string> {
    if run == [] then {}
    else Issued(run[..|run| - 1]) + (if run[|run| - 1].Issue? then {run[|run| - 1].id} else {})
  }

  /** The clock never goes back, and a challenge id is never drawn twice. */
  predicate ProperRun(run: seq<Event>) {
    run == [] ||
    var before, e := run[..|run| - 1], run[|run| - 1];
    && ProperRun(before)
    && (before != [] ==> before[|before| - 1].now <= e.now)
    && (e.Issue? ==> e.id !in Issued(before))
  }

  /** How many wrong codes the challenge has seen evaluated. */
  function Wrong(cfg: Config, run: seq<Event>, id: string): nat {
    if run == [] then 0
    else
      var e, told := run[|run| - 1], Told(cfg, run);
      Wrong(cfg, run[..|run| - 1], id) +
      (if e.Verify? && e.id == id && (told.WrongCode? || told.TooManyAttempts?) then 1 else 0)
  }

  /** How many verifications of the challenge have succeeded. */
  function Succeeded(cfg: Config, run: seq<Event>, id: string): nat {
    if run == [] then 0
    else
      var e := run[|run| - 1];
      Succeeded(cfg, run[..|run| - 1], id) + (if e.Verify? && e.id == id && Told(cfg, run).Success? then 1 else 0)
  }

  /** Where one challenge stands: the counter of a live challenge is exact and outlives it. */
  ghost predicate Inv(cfg: Config, s: State, issued: bool, id: string, wrong: nat, succeeded: nat, clock: int) {
    && (id in s.challenges || id in s.attempts || wrong + succeeded > 0 ==> issued)
    && wrong <= cfg.maxAttempts && succeeded <= 1
    && (Live(s, id, clock) ==>
          && succeeded == 0 && wrong < cfg.maxAttempts
          && (wrong == 0 ==> id !in s.attempts && s.challenges[id].expires <= clock + 1000 * cfg.ttlSeconds)
          && (wrong > 0 ==> id in s.attempts && s.attempts[id].count == wrong
                            && s.challenges[id].expires <= s.attempts[id].expires))
  }

  predicate IsMiss(told: Outcome) { told.WrongCode? || told.TooManyAttempts? }

  lemma {:induction false} MissKeepsInv(cfg: Config, s: State, id: string, wrong: nat, succeeded: nat, now: int)
    requires cfg.maxAttempts >= 1 && Inv(cfg, s, true, id, wrong, succeeded, now) && Live(s, id, now)
    ensures var (s', told) := Miss(cfg, s, id, now);
            && IsMiss(told) && Inv(cfg, s', true, id, wrong + 1, succeeded, now)
            && (told.TooManyAttempts? <==> wrong + 1 == cfg.maxAttempts)
  {}

  lemma {:induction false} VerifyKeepsInv(cfg: Config, s: State, e: Event, issued: bool, id: string, wrong: nat, succeeded: nat)
    requires e.Verify? && e.id == id && cfg.maxAttempts >= 1 && Inv(cfg, s, issued, id, wrong, succeeded, e.now)
    ensures var (s', told) := Step(cfg, s, e);
            && Inv(cfg, s', issued, id, wrong + (if IsMiss(told) then 1 else 0), succeeded + (if told.Success? then 1 else 0), e.now)
            && (told.TooManyAttempts? ==> wrong + 1 == cfg.maxAttempts)
            && (told.WrongCode? ==> wrong + 1 < cfg.maxAttempts)
            && (told != NoChallenge ==> succeeded == 0 && wrong < cfg.maxAttempts)
  {
    if Live(s, id, e.now) { MissKeepsInv(cfg, s, id, wrong, succeeded, e.now); }
  }

  lemma {:induction false} OtherKeepsInv(cfg: Config, s: State, e: Event, issued: bool, id: string, wrong: nat, succeeded: nat)
    requires Inv(cfg, s, issued, id, wrong, succeeded, e.now)
    requires e.SetUser? || e.id != id
    ensures Inv(cfg, Step(cfg, s, e).0, issued, id, wrong, succeeded, e.now)
  {
    var s' := Step(cfg, s, e).0;
    assert (id in s'.challenges <==> id in s.challenges) && (id in s'.attempts <==> id in s.attempts);
    assert id in s.challenges ==> s'.challenges[id] == s.challenges[id];
    assert id in s.attempts ==> s'.attempts[id] == s.attempts[id];
  }

  lemma {:induction false} InvLater(cfg: Config, s: State, issued: bool, id: string, wrong: nat, succeeded: nat, clock: int, now: int)
    requires Inv(cfg, s, issued, id, wrong, succeeded, clock) && clock <= now
    ensures Inv(cfg, s, issued, id, wrong, succeeded, now)
  {}

  lemma {:induction false} RunInv(cfg: Config, run: seq<Event>, id: string, clock: int)
    requires cfg.maxAttempts >= 1 && ProperRun(run) && (run != [] ==> run[|run| - 1].now <= clock)
    ensures Inv(cfg, After(cfg, run), id in Issued(run), id, Wrong(cfg, run, id), Succeeded(cfg, run, id), clock)
  {
    if run != [] {
      var before, e := run[..|run| - 1], run[|run| - 1];
      var s, issued := After(cfg, before), id in Issued(before);
      var wrong, succeeded := Wrong(cfg, before, id), Succeeded(cfg, before, id);
      RunInv(cfg, before, id, e.now);
      if e.Verify? && e.id == id {
        VerifyKeepsInv(cfg, s, e, issued, id, wrong, succeeded);
      } else if e.SetUser? || e.id != id {
        OtherKeepsInv(cfg, s, e, issued, id, wrong, succeeded);
      }
      InvLater(cfg, After(cfg, run), id in Issued(run), id, Wrong(cfg, run, id), Succeeded(cfg, run, id), e.now, clock);
    }
  }

  /**
    For each challenge, in every run: at most `maxAttempts` wrong codes are evaluated and at most one
    verification succeeds, because the counter of a live challenge never expires before it.
  */
  lemma {:induction false} ChallengeBounds(cfg: Config, run: seq<Event>, id: string)
    requires cfg.maxAttempts >= 1 && ProperRun(run)
    ensures Wrong(cfg, run, id) <= cfg.maxAttempts && Succeeded(cfg, run, id) <= 1
    ensures var s := After(cfg, run);
            run != [] && Live(s, id, run[|run| - 1].now) && Wrong(cfg, run, id) > 0 ==>
              id in s.attempts && s.attempts[id].expires >= s.challenges[id].expires
              && s.attempts[id].count == Wrong(cfg, run, id)
  {
    RunInv(cfg, run, id, if run == [] then 0 else run[|run| - 1].now);
  }

  /** A challenge that succeeded or was exhausted answers nothing more, and the last miss says so. */
  lemma {:induction false} SpentChallenge(cfg: Config, run: seq<Event>)
    requires cfg.maxAttempts >= 1 && ProperRun(run) && run != [] && run[|run| - 1].Verify?
    ensures var before, id, told := run[..|run| - 1], run[|run| - 1].id, Told(cfg, run);
            && (Succeeded(cfg, before, id) == 1 || Wrong(cfg, before, id) == cfg.maxAttempts ==> told == NoChallenge)
            && (IsMiss(told) ==> (told == TooManyAttempts <==> Wrong(cfg, run, id) == cfg.maxAttempts))
  {
    var before, e := run[..|run| - 1], run[|run| - 1];
    RunInv(cfg, before, e.id, e.now);
    VerifyKeepsInv(cfg, After(cfg, before), e, e.id in Issued(before), e.id, Wrong(cfg, before, e.id), Succeeded(cfg, before, e.id));
  }

  /** The time of the first wrong code. */
  function FirstWrong(cfg: Config, run: seq<Event>, id: string): Option<int> {
    if run == [] then None
    else
      var first, e := FirstWrong(cfg, run[..|run| - 1], id), run[|run| - 1];
      if first.None? && e.Verify? && e.id == id && IsMiss(Told(cfg, run)) then Some(e.now) else first
  }

  /** The counter of a live challenge expires one lifetime after the first wrong code. */
  lemma {:induction false} CounterExpiry(cfg: Config, run: seq<Event>, id: string, clock: int)
    requires cfg.maxAttempts >= 1 && ProperRun(run) && (run != [] ==> run[|run| - 1].now <= clock)
    ensures FirstWrong(cfg, run, id).Some? <==> Wrong(cfg, run, id) > 0
    ensures var s, first := After(cfg, run), FirstWrong(cfg, run, id);
            Live(s, id, clock) && first.Some? ==> id in s.attempts && s.attempts[id].expires == first.value + 1000 * cfg.ttlSeconds
  {
    if run != [] {
      var before, e := run[..|run| - 1], run[|run| - 1];
      CounterExpiry(cfg, before, id, e.now);
      RunInv(cfg, before, id, e.now);
      ExpiryStep(cfg, After(cfg, before), e, id);
    }
  }

  /** What one step does to a counter. */
  lemma {:induction false} ExpiryStep(cfg: Config, s: State, e: Event, id: string)
    ensures var (s', told) := Step(cfg, s, e);
            if e.Verify? && e.id == id && told.WrongCode? then
              && id in s.challenges && id in s'.challenges && s'.challenges[id] == s.challenges[id] && id in s'.attempts
              && s'.attempts[id].expires ==
                 if id in s.attempts && e.now < s.attempts[id].expires && s.attempts[id].count > 0 then s.attempts[id].expires
                 else e.now + 1000 * cfg.ttlSeconds
            else if e.Verify? && e.id == id && (told.Success? || told.TooManyAttempts? || told.FingerprintMismatch?) then
              id !in s'.challenges && id !in s'.attempts
            else
              && (id in s'.attempts <==> id in s.attempts) && (id in s.attempts ==> s'.attempts[id] == s.attempts[id])
              && (!(e.Issue? && e.id == id) ==> (id in s'.challenges <==> id in s.challenges)
                                                && (id in s.challenges ==> s'.challenges[id] == s.challenges[id]))
  {}

  // ---------------------------------------------------------------- answers from the history

  /** The challenge as it was issued. */
  function IssuedAs(cfg: Config, run: seq<Event>, id: string): Option<Challenge> {
    if run == [] then None
    else
      var e := run[|run| - 1];
      if e.Issue? && e.id == id then Some(Challenge(e.userId, e.fingerprint, e.mode, e.now + 1000 * cfg.ttlSeconds))
      else IssuedAs(cfg, run[..|run| - 1], id)
  }

  predicate EndsChallenge(told: Outcome) { told.Success? || told.TooManyAttempts? || told.FingerprintMismatch? }

  /** Some verification has ended the challenge. */
  predicate HasEnded(cfg: Config, run: seq<Event>, id: string) {
    run != [] &&
    (HasEnded(cfg, run[..|run| - 1], id) ||
     (run[|run| - 1].Verify? && run[|run| - 1].id == id && EndsChallenge(Told(cfg, run))))
  }

  /** What one step does to a stored challenge. */
  lemma {:induction false} StoredStep(cfg: Config, s: State, e: Event, id: string)
    ensures var (s', told) := Step(cfg, s, e);
            if e.Issue? && e.id == id then
              id in s'.challenges && s'.challenges[id] == Challenge(e.userId, e.fingerprint, e.mode, e.now + 1000 * cfg.ttlSeconds)
            else if e.Verify? && e.id == id && EndsChallenge(told) then id in s.challenges && id !in s'.challenges
            else (id in s'.challenges <==> id in s.challenges) && (id in s.challenges ==> s'.challenges[id] == s.challenges[id])
  {}

  lemma {:induction false} StoredAsIssued(cfg: Config, run: seq<Event>, id: string)
    requires ProperRun(run)
    ensures id in Issued(run) <==> IssuedAs(cfg, run, id).Some?
    ensures HasEnded(cfg, run, id) ==> id in Issued(run)
    ensures var s := After(cfg, run);
            if IssuedAs(cfg, run, id).None? || HasEnded(cfg, run, id) then id !in s.challenges
            else id in s.challenges && s.challenges[id] == IssuedAs(cfg, run, id).value
  {
    if run != [] {
      StoredAsIssued(cfg, run[..|run| - 1], id);
      StoredStep(cfg, After(cfg, run[..|run| - 1]), run[|run| - 1], id);
    }
  }

  /**
    A verification finds its challenge exactly if it was issued, has not run out and no earlier
    verification ended it; and it gets past the fingerprint exactly with the one of the login.
  */
  lemma {:induction false} OpenExactly(cfg: Config, run: seq<Event>)
    requires ProperRun(run) && run != [] && run[|run| - 1].Verify?
    ensures var before, e, told := run[..|run| - 1], run[|run| - 1], Told(cfg, run);
            var c := IssuedAs(cfg, before, e.id);
            && (told == NoChallenge <==> c.None? || e.now >= c.value.expires || HasEnded(cfg, before, e.id))
            && (told == FingerprintMismatch <==> told != NoChallenge && c.value.fingerprint != e.fingerprint)
  {
    StoredAsIssued(cfg, run[..|run| - 1], run[|run| - 1].id);
  }

  /** The user as last stored from outside. */
  function LastSet(run: seq<Event>, userId: string): Option<User> {
    if run == [] then None
    else
      var e := run[|run| - 1];
      if e.SetUser? && e.userId == userId then Some(e.user) else LastSet(run[..|run| - 1], userId)
  }

  /** Verifications change nothing of a user but the recovery codes. */
  lemma {:induction false} AccountFromHistory(cfg: Config, run: seq<Event>, userId: string)
    ensures var user, stored := UserOf(After(cfg, run), userId), LastSet(run, userId);
            user.active == (stored.Some? && stored.value.active) && user.secret == if stored.Some? then stored.value.secret else None
  {
    if run != [] {
      var before, e := run[..|run| - 1], run[|run| - 1];
      AccountFromHistory(cfg, before, userId);
      if e.Verify? { var i := VerifyUsers(cfg, After(cfg, before), e); }
    }
  }

  /** The first stored hash that matches. */
  predicate IsFirstMatch(cfg: Config, normalized: string, hashes: seq<string>, i: int) {
    0 <= i < |hashes| && cfg.compare(normalized, hashes[i]) && forall j :: 0 <= j < i ==> !cfg.compare(normalized, hashes[j])
  }

  /** What the challenge's own code check says, from the configuration's functions. */
  predicate CodeRight(cfg: Config, c: Challenge, user: User, code: string, now: int) {
    match c.mode
    case Totp => user.secret.Some? && user.secret.value != "" && cfg.totp(user.secret.value, code, now) == Some(true)
    case Temporary(expected) => expected != "" && code == expected
  }

  predicate CodeThrows(cfg: Config, c: Challenge, user: User, code: string, now: int) {
    c.mode.Totp? && user.secret.Some? && user.secret.value != "" && cfg.totp(user.secret.value, code, now) == None
  }

  /** The code is a recovery code, and `i` is the place of the hash it uses up. */
  predicate UsesCodeAt(cfg: Config, c: Challenge, user: User, code: string, i: int) {
    c.mode.Totp? && |NormalizeRecoveryCode(code)| >= 8 && IsFirstMatch(cfg, NormalizeRecoveryCode(code), user.recovery, i)
  }

  /** The place, or -1. */
  function PlaceOf(cfg: Config, c: Challenge, user: User, code: string): (i: int)
    ensures i >= 0 ==> UsesCodeAt(cfg, c, user, code, i)
    ensures forall k :: UsesCodeAt(cfg, c, user, code, k) ==> k == i
  {
    var r := RecoveryIndex(cfg, user, code);
    if c.mode.Totp? && r.Some? then r.value else -1
  }

  /**
    Every answer to a verification that finds its challenge and shows the login's fingerprint: no active
    user, a secret that makes the check throw, the right code, a recovery code, or a miss.
  */
  lemma {:induction false} VerifyAnswers(cfg: Config, run: seq<Event>)
    requires ProperRun(run) && run != [] && run[|run| - 1].Verify?
    requires Told(cfg, run) != NoChallenge && Told(cfg, run) != FingerprintMismatch
    ensures IssuedAs(cfg, run[..|run| - 1], run[|run| - 1].id).Some?
    ensures var before, e, told := run[..|run| - 1], run[|run| - 1], Told(cfg, run);
            var c := IssuedAs(cfg, before, e.id).value;
            var user := UserOf(After(cfg, before), c.userId);
            var right, throws := CodeRight(cfg, c, user, e.code, e.now), CodeThrows(cfg, c, user, e.code, e.now);
            var i := PlaceOf(cfg, c, user, e.code);
            && (told == UserInactive <==> !user.active)
            && (told == SecretFault <==> user.active && throws)
            && (told == Success(None) <==> user.active && right)
            && ((told.Success? && told.usedRecovery.Some?) <==> user.active && !throws && !right && i >= 0)
            && (i >= 0 && told.Success? && told.usedRecovery.Some? ==> told.usedRecovery.value == user.recovery[i])
            && (IsMiss(told) <==> user.active && !throws && !right && i < 0)
  {
    StoredAsIssued(cfg, run[..|run| - 1], run[|run| - 1].id);
  }

  /** A verification succeeds only for an active user, by the challenge's own code or by an unused recovery code. */
  lemma {:induction false} SuccessMeans(cfg: Config, run: seq<Event>)
    requires ProperRun(run) && run != [] && Told(cfg, run).Success?
    ensures var before, e, told := run[..|run| - 1], run[|run| - 1], Told(cfg, run);
            var c := IssuedAs(cfg, before, e.id);
            && c.Some? && e.now < c.value.expires && c.value.fingerprint == e.fingerprint
            && var user := UserOf(After(cfg, before), c.value.userId);
               && user.active
               && (told.usedRecovery.None? ==> CodeRight(cfg, c.value, user, e.code, e.now))
               && (told.usedRecovery.Some? ==>
                     && c.value.mode.Totp? && told.usedRecovery.value in user.recovery
                     && cfg.compare(NormalizeRecoveryCode(e.code), told.usedRecovery.value))
  {
    StoredAsIssued(cfg, run[..|run| - 1], run[|run| - 1].id);
  }

  // ---------------------------------------------------------------- recovery codes over a run

  function UserOf(s: State, userId: string): User {
    if userId in s.users then s.users[userId] else User(false, None, [])
  }

  /** The user whose challenge the event answers. */
  predicate Answers(s: State, e: Event, userId: string) {
    e.Verify? && e.id in s.challenges && s.challenges[e.id].userId == userId
  }

  /** The codes last stored for the user. */
  function Provisioned(run: seq<Event>, userId: string): seq<string> {
    if run == [] then []
    else
      var e := run[|run| - 1];
      if e.SetUser? && e.userId == userId then e.user.recovery else Provisioned(run[..|run| - 1], userId)
  }

  /** The codes the user's verifications have used since then. */
  function Used(cfg: Config, run: seq<Event>, userId: string): multiset<string> {
    if run == [] then multiset{}
    else
      var before, e, told := run[..|run| - 1], run[|run| - 1], Told(cfg, run);
      if e.SetUser? && e.userId == userId then multiset{}
      else if Answers(After(cfg, before), e, userId) && UsesRecovery(told) then
        Used(cfg, before, userId) + multiset{told.usedRecovery.value}
      else Used(cfg, before, userId)
  }

  lemma {:induction false} SplicedOne(hashes: seq<string>, i: nat)
    requires i < |hashes|
    ensures multiset(hashes) == multiset(Spliced(hashes, i)) + multiset{hashes[i]}
  {
    assert hashes == hashes[..i] + [hashes[i]] + hashes[i + 1..];
  }

  predicate UsesRecovery(told: Outcome) { told.Success? && told.usedRecovery.Some? }

  lemma {:induction false} VerifyUsers(cfg: Config, s: State, e: Event) returns (i: nat)
    requires e.Verify?
    ensures var (s', told) := Step(cfg, s, e);
            if !UsesRecovery(told) then s'.users == s.users
            else
              && e.id in s.challenges && s.challenges[e.id].userId in s.users
              && var userId := s.challenges[e.id].userId;
                 var user := s.users[userId];
                 && i < |user.recovery| && told.usedRecovery.value == user.recovery[i]
                 && s'.users == s.users[userId := user.(recovery := Spliced(user.recovery, i))]
  {
    i := 0;
    var (s', told) := Step(cfg, s, e);
    if UsesRecovery(told) {
      i := RecoveryIndex(cfg, s.users[s.challenges[e.id].userId], e.code).value;
    }
  }

  lemma {:induction false} StepSplices(cfg: Config, s: State, e: Event, userId: string)
    requires !(e.SetUser? && e.userId == userId)
    ensures var (s', told) := Step(cfg, s, e);
            multiset(UserOf(s, userId).recovery) == multiset(UserOf(s', userId).recovery) +
              (if Answers(s, e, userId) && UsesRecovery(told) then multiset{told.usedRecovery.value} else multiset{})
  {
    if e.Verify? {
      var i := VerifyUsers(cfg, s, e);
      if Answers(s, e, userId) && UsesRecovery(Step(cfg, s, e).1) {
        SplicedOne(s.users[userId].recovery, i);
      }
    }
  }

  /** No recovery code works twice: those stored are those left and those used, each once. */
  lemma {:induction false} RecoveryConserved(cfg: Config, run: seq<Event>, userId: string)
    ensures multiset(Provisioned(run, userId)) == multiset(UserOf(After(cfg, run), userId).recovery) + Used(cfg, run, userId)
  {
    if run != [] {
      var before, e := run[..|run| - 1], run[|run| - 1];
      RecoveryConserved(cfg, before, userId);
      if !(e.SetUser? && e.userId == userId) {
        StepSplices(cfg, After(cfg, before), e, userId);
      }
    }
  }
}
