/** Login lockout: a failure counter, a lock and a lock streak per email, all keys with an expiry. */
module Lockout {
  import opened Outcomes

  /**
    `ttlFloor` is the least remaining life, in milliseconds, at which the key store reports a positive
    number of seconds: 1 for an exact clock, 500 for one that rounds to the nearest second.
  */
  datatype Config = Config(windowSeconds: nat, lockMaxSeconds: nat, multiplier: real, maxAttempts: nat,
                           captchaThreshold: Option<nat>, ttlFloor: nat)

  ghost predicate ValidConfig(c: Config) {
    c.windowSeconds >= 1 && c.lockMaxSeconds >= 1 && c.multiplier >= 1.0 && c.maxAttempts >= 1 && c.ttlFloor >= 1
  }

  const DAY_MS := 86_400_000

  /** A counter key: alive before the instant `expires`. */
  datatype Counter = Counter(count: nat, expires: int)

  datatype Account = Account(fail: Option<Counter>, lock: Option<int>, streak: Option<Counter>)

  const NoKeys := Account(None, None, None)

  /** A login request: whether its captcha token passes and whether its credentials do. */
  datatype Attempt = Attempt(now: int, captchaOk: bool, valid: bool)

  datatype Outcome = Refused | CaptchaRequired | Failed | LockedOut(seconds: int) | Success

  predicate Alive(k: Option<Counter>, now: int) { k.Some? && now < k.value.expires }

  function Count(k: Option<Counter>, now: int): nat { if Alive(k, now) then k.value.count else 0 }

  predicate Locked(cfg: Config, lock: Option<int>, now: int) { lock.Some? && lock.value - now >= cfg.ttlFloor }

  /** `window * multiplier ** n` */
  function Progressive(window: real, multiplier: real, n: nat): real {
    if n == 0 then window else multiplier * Progressive(window, multiplier, n - 1)
  }

  /** `Math.round` */
  function Round(x: real): int { (x + 0.5).Floor }

  function LockSeconds(cfg: Config, streak: nat): int {
    var exponent := if streak >= 1 then streak - 1 else 0;
    Capped(cfg.lockMaxSeconds, Progressive(cfg.windowSeconds as real, cfg.multiplier, exponent))
  }

  function Capped(max: int, seconds: real): int {
    if max < Round(seconds) then max else Round(seconds)
  }

  /** `INCR`, with the expiry that a new key is given. */
  function Incremented(k: Option<Counter>, now: int, expires: int): Counter {
    if Alive(k, now) then k.value.(count := k.value.count + 1) else Counter(1, expires)
  }

  function RegisterFailed(cfg: Config, a: Account, now: int): (Account, Outcome) {
    var fail := Incremented(a.fail, now, now + 1000 * cfg.windowSeconds);
    if fail.count >= cfg.maxAttempts then
      var streak := Count(a.streak, now) + 1;
      var seconds := LockSeconds(cfg, streak);
      (Account(Some(fail), Some(now + 1000 * seconds), Some(Counter(streak, now + DAY_MS))), LockedOut(seconds))
    else (a.(fail := Some(fail)), Failed)
  }

  function Login(cfg: Config, a: Account, t: Attempt): (Account, Outcome) {
    if Locked(cfg, a.lock, t.now) then (a, Refused)
    else if cfg.captchaThreshold.Some? && Count(a.fail, t.now) >= cfg.captchaThreshold.value && !t.captchaOk then
      (a, CaptchaRequired)
    else if !t.valid then RegisterFailed(cfg, a, t.now)
    else (Account(None, None, a.streak), Success)
  }

  class LoginGuard {
    const cfg: Config
    var failKeys: map<string, Counter>
    var lockKeys: map<string, int>
    var streakKeys: map<string, Counter>

    constructor (cfg: Config)
      ensures this.cfg == cfg && failKeys == map[] && lockKeys == map[] && streakKeys == map[]
    {
      this.cfg := cfg;
      failKeys, lockKeys, streakKeys := map[], map[], map[];
    }

    function AccountOf(email: string): Account
      reads this
    {
      Account(if email in failKeys then Some(failKeys[email]) else None,
              if email in lockKeys then Some(lockKeys[email]) else None,
              if email in streakKeys then Some(streakKeys[email]) else None)
    }

    method AssertNotLocked(email: string, now: int) returns (locked: bool)
      ensures locked == Locked(cfg, AccountOf(email).lock, now)
    {
      locked := email in lockKeys && lockKeys[email] - now >= cfg.ttlFloor;
    }

    method RegisterFailedLogin(email: string, now: int) returns (r: Outcome)
      modifies this
      ensures (AccountOf(email), r) == RegisterFailed(cfg, old(AccountOf(email)), now)
      ensures forall other :: other != email ==> AccountOf(other) == old(AccountOf(other))
    {
      var attempts := 1 + if email in failKeys && now < failKeys[email].expires then failKeys[email].count else 0;
      var expires := if email in failKeys && now < failKeys[email].expires then failKeys[email].expires
                     else now + 1000 * cfg.windowSeconds;
      failKeys := failKeys[email := Counter(attempts, expires)];
      if attempts >= cfg.maxAttempts {
        var streak := 1 + if email in streakKeys && now < streakKeys[email].expires then streakKeys[email].count else 0;
        streakKeys := streakKeys[email := Counter(streak, now + DAY_MS)];
        var seconds := LockSeconds(cfg, streak);
        lockKeys := lockKeys[email := now + 1000 * seconds];
        return LockedOut(seconds);
      }
      r := Failed;
    }

    method ClearFailedLogins(email: string)
      modifies this
      ensures AccountOf(email) == Account(None, None, old(AccountOf(email)).streak)
      ensures forall other :: other != email ==> AccountOf(other) == old(AccountOf(other))
    {
      failKeys, lockKeys := failKeys - {email}, lockKeys - {email};
    }

    /** The lockout part of `login`; `captchaOk` and `valid` stand for the token and credential checks. */
    method TryLogin(email: string, t: Attempt) returns (r: Outcome)
      modifies this
      ensures (AccountOf(email), r) == Login(cfg, old(AccountOf(email)), t)
      ensures forall other :: other != email ==> AccountOf(other) == old(AccountOf(other))
    {
      var locked := AssertNotLocked(email, t.now);
      if locked {
        return Refused;
      }
      var failCount := if email in failKeys && t.now < failKeys[email].expires then failKeys[email].count else 0;
      if cfg.captchaThreshold.Some? && failCount >= cfg.captchaThreshold.value && !t.captchaOk {
        return CaptchaRequired;
      }
      if !t.valid {
        r := RegisterFailedLogin(email, t.now);
        return;
      }
      ClearFailedLogins(email);
      r := Success;
    }
  }

  // ---------------------------------------------------------------- lock lengths

  lemma {:induction false} ProgressiveGrows(window: real, multiplier: real, n: nat)
    requires window >= 0.0 && multiplier >= 1.0
    ensures window <= Progressive(window, multiplier, n) <= Progressive(window, multiplier, n + 1)
  {
    if n > 0 { ProgressiveGrows(window, multiplier, n - 1); }
    assert (multiplier - 1.0) * Progressive(window, multiplier, n) >= 0.0;
  }

  /** Lengths never fall as the streak grows, start at the window, and stay between 1 and the maximum. */
  lemma {:induction false} LockLengths(cfg: Config, streak: nat)
    requires ValidConfig(cfg) && streak >= 1
    ensures LockSeconds(cfg, streak) <= LockSeconds(cfg, streak + 1) <= cfg.lockMaxSeconds
    ensures LockSeconds(cfg, 1) == (if cfg.lockMaxSeconds < cfg.windowSeconds then cfg.lockMaxSeconds else cfg.windowSeconds)
    ensures 1 <= LockSeconds(cfg, 1) <= LockSeconds(cfg, streak)
    ensures cfg.lockMaxSeconds >= cfg.windowSeconds ==> LockSeconds(cfg, streak) >= cfg.windowSeconds
  {
    var w, m := cfg.windowSeconds as real, cfg.multiplier;
    ProgressiveGrows(w, m, streak - 1);
    CappedMonotone(cfg.lockMaxSeconds, Progressive(w, m, streak - 1), Progressive(w, m, streak));
    CappedMonotone(cfg.lockMaxSeconds, w, Progressive(w, m, streak - 1));
    assert Round(w) == cfg.windowSeconds;
  }

  lemma {:induction false} CappedMonotone(max: int, x: real, y: real)
    requires x <= y
    ensures Capped(max, x) <= Capped(max, y) <= max
  {}

  // ---------------------------------------------------------------- runs

  predicate Monotone(run: seq<Attempt>) {
    forall i, j :: 0 <= i < j < |run| ==> run[i].now <= run[j].now
  }

  /** One email's keys after a run. */
  function After(cfg: Config, run: seq<Attempt>): Account {
    if run == [] then NoKeys else Login(cfg, After(cfg, run[..|run| - 1]), run[|run| - 1]).0
  }

  /** What the last attempt of the run was told. */
  function Told(cfg: Config, run: seq<Attempt>): Outcome
    requires run != []
  {
    Login(cfg, After(cfg, run[..|run| - 1]), run[|run| - 1]).1
  }

  /** The counted failures since the last success or counter expiry, after one more outcome at `now`. */
  function NextEpoch(cfg: Config, epoch: seq<int>, told: Outcome, now: int): seq<int> {
    match told
    case Success => []
    case Refused => epoch
    case CaptchaRequired => epoch
    case _ => if EpochAlive(cfg, epoch, now) then epoch + [now] else [now]
  }

  /** The counter's life as the epoch tells it: one window from its first failure. */
  predicate EpochAlive(cfg: Config, epoch: seq<int>, now: int) {
    epoch != [] && now < epoch[0] + 1000 * cfg.windowSeconds
  }

  /** The times of the counted failures since the last success or counter expiry, from the outcomes alone. */
  function Epoch(cfg: Config, run: seq<Attempt>): seq<int> {
    if run == [] then []
    else NextEpoch(cfg, Epoch(cfg, run[..|run| - 1]), Told(cfg, run), run[|run| - 1].now)
  }

  datatype Lock = Lock(since: int, seconds: int)

  function NextLock(last: Option<Lock>, told: Outcome, now: int): Option<Lock> {
    if told.LockedOut? then Some(Lock(now, told.seconds)) else last
  }

  /** The last lock that was set. */
  function LastLock(cfg: Config, run: seq<Attempt>): Option<Lock> {
    if run == [] then None
    else NextLock(LastLock(cfg, run[..|run| - 1]), Told(cfg, run), run[|run| - 1].now)
  }

  /** The instant `now` lies in the part of the lock's life in which it is reported. */
  predicate Reported(cfg: Config, lock: Option<Lock>, now: int) {
    lock.Some? && now + cfg.ttlFloor <= lock.value.since + 1000 * lock.value.seconds
  }

  /** The keys agree with the history, at every instant from `clock` on. */
  ghost predicate Agrees(cfg: Config, a: Account, epoch: seq<int>, last: Option<Lock>, clock: int) {
    && (epoch == [] ==> a.fail.None?)
    && (epoch != [] ==> a.fail == Some(Counter(|epoch|, epoch[0] + 1000 * cfg.windowSeconds)))
    && (a.lock.Some? ==> last.Some? && a.lock.value == last.value.since + 1000 * last.value.seconds)
    && (a.lock.None? ==> !Reported(cfg, last, clock))
    && (last.None? <==> a.streak.None?)
    && (last.Some? ==>
          && a.streak.value.count >= 1
          && last.value.seconds == LockSeconds(cfg, a.streak.value.count)
          && a.streak.value.expires == last.value.since + DAY_MS)
  }

  lemma {:induction false} StepAgrees(cfg: Config, a: Account, epoch: seq<int>, last: Option<Lock>, t: Attempt, clock: int)
    requires Agrees(cfg, a, epoch, last, t.now) && t.now <= clock
    ensures var (a', told) := Login(cfg, a, t);
            Agrees(cfg, a', NextEpoch(cfg, epoch, told, t.now), NextLock(last, told, t.now), clock)
  {
    if !Locked(cfg, a.lock, t.now) {
      assert !Reported(cfg, last, t.now);
      assert !Reported(cfg, last, clock);
      assert Alive(a.fail, t.now) == EpochAlive(cfg, epoch, t.now);
    }
  }

  lemma {:induction false} RunAgrees(cfg: Config, run: seq<Attempt>, clock: int)
    requires Monotone(run) && (run != [] ==> run[|run| - 1].now <= clock)
    ensures Agrees(cfg, After(cfg, run), Epoch(cfg, run), LastLock(cfg, run), clock)
  {
    if run != [] {
      var before, t := run[..|run| - 1], run[|run| - 1];
      MonotonePrefix(run);
      RunAgrees(cfg, before, t.now);
      StepAgrees(cfg, After(cfg, before), Epoch(cfg, before), LastLock(cfg, before), t, clock);
    }
  }

  lemma {:induction false} MonotonePrefix(run: seq<Attempt>)
    requires Monotone(run) && run != []
    ensures Monotone(run[..|run| - 1])
    ensures |run| > 1 ==> run[..|run| - 1][|run| - 2].now <= run[|run| - 1].now
  {}

  /** An attempt is refused exactly while the last lock is reported; nothing else ends a lock early. */
  lemma {:induction false} RefusedWhileLocked(cfg: Config, run: seq<Attempt>)
    requires Monotone(run) && run != []
    ensures Told(cfg, run) == Refused <==> Reported(cfg, LastLock(cfg, run[..|run| - 1]), run[|run| - 1].now)
  {
    MonotonePrefix(run);
    RunAgrees(cfg, run[..|run| - 1], run[|run| - 1].now);
  }

  /** The counted failures that are still remembered at `now`. */
  function Remembered(cfg: Config, epoch: seq<int>, now: int): nat {
    if EpochAlive(cfg, epoch, now) then |epoch| else 0
  }

  /**
    Every answer from the history alone: a captcha is demanded exactly when enough failures are
    remembered, a login succeeds exactly when nothing stands in its way, and a failure locks exactly
    when it completes the limit.
  */
  lemma {:induction false} AnswersFromHistory(cfg: Config, run: seq<Attempt>)
    requires Monotone(run) && run != []
    ensures var before, t, told := run[..|run| - 1], run[|run| - 1], Told(cfg, run);
            var locked := Reported(cfg, LastLock(cfg, before), t.now);
            var n := Remembered(cfg, Epoch(cfg, before), t.now);
            var demanded := cfg.captchaThreshold.Some? && n >= cfg.captchaThreshold.value && !t.captchaOk;
            && (told == CaptchaRequired <==> !locked && demanded)
            && (told == Success <==> !locked && !demanded && t.valid)
            && (told.LockedOut? <==> !locked && !demanded && !t.valid && n + 1 >= cfg.maxAttempts)
            && (told == Failed <==> !locked && !demanded && !t.valid && n + 1 < cfg.maxAttempts)
  {
    MonotonePrefix(run);
    RunAgrees(cfg, run[..|run| - 1], run[|run| - 1].now);
    RefusedWhileLocked(cfg, run);
  }

  /** A success forgets the counter and the lock, and not the streak. */
  lemma {:induction false} SuccessClearsKeys(cfg: Config, run: seq<Attempt>)
    requires run != [] && Told(cfg, run) == Success
    ensures After(cfg, run) == Account(None, None, After(cfg, run[..|run| - 1]).streak)
  {}

  /** Within a day of a lock the next one is no shorter; after a day the length starts over. */
  lemma {:induction false} NextLockNoShorter(cfg: Config, run: seq<Attempt>)
    requires ValidConfig(cfg) && Monotone(run) && run != [] && Told(cfg, run).LockedOut?
    ensures var previous, now, seconds := LastLock(cfg, run[..|run| - 1]), run[|run| - 1].now, Told(cfg, run).seconds;
            && 1 <= seconds <= cfg.lockMaxSeconds
            && (previous.Some? && now < previous.value.since + DAY_MS ==> previous.value.seconds <= seconds)
            && (previous.None? || now >= previous.value.since + DAY_MS ==> seconds == LockSeconds(cfg, 1))
  {
    MonotonePrefix(run);
    var a := After(cfg, run[..|run| - 1]);
    RunAgrees(cfg, run[..|run| - 1], run[|run| - 1].now);
    LockLengths(cfg, Count(a.streak, run[|run| - 1].now) + 1);
    if Count(a.streak, run[|run| - 1].now) >= 1 {
      LockLengths(cfg, Count(a.streak, run[|run| - 1].now));
    }
  }

  // ---------------------------------------------------------------- lock lengths from the history

  /** How many locks have been set since the last pause of a day between two of them. */
  function Streak(cfg: Config, run: seq<Attempt>): nat {
    if run == [] then 0
    else
      var before := run[..|run| - 1];
      if !Told(cfg, run).LockedOut? then Streak(cfg, before)
      else
        var previous := LastLock(cfg, before);
        if previous.Some? && run[|run| - 1].now - previous.value.since < 24 * 60 * 60 * 1000 then Streak(cfg, before) + 1 else 1
  }

  lemma {:induction false} StreakAgrees(cfg: Config, run: seq<Attempt>)
    requires Monotone(run)
    ensures var streak := After(cfg, run).streak;
            Streak(cfg, run) == if streak.Some? then streak.value.count else 0
  {
    if run != [] {
      MonotonePrefix(run);
      StreakAgrees(cfg, run[..|run| - 1]);
      RunAgrees(cfg, run[..|run| - 1], run[|run| - 1].now);
    }
  }

  /** The power, by its laws. */
  function Power(base: real, n: nat): real { if n == 0 then 1.0 else Power(base, n - 1) * base }

  lemma {:induction false} ProgressiveIsPower(window: real, multiplier: real, n: nat)
    ensures Progressive(window, multiplier, n) == window * Power(multiplier, n)
  {
    if n > 0 {
      ProgressiveIsPower(window, multiplier, n - 1);
      assert multiplier * (window * Power(multiplier, n - 1)) == window * (Power(multiplier, n - 1) * multiplier);
    }
  }

  /** The whole number nearest to the window times a power of the multiplier, the greater one of two. */
  predicate IsNearest(cfg: Config, n: int, exponent: nat) {
    var x := cfg.windowSeconds as real * Power(cfg.multiplier, exponent);
    x - 0.5 < n as real <= x + 0.5
  }

  /**
    The length of every lock from the outcomes alone: `nearest` is the whole number nearest to the window
    times the multiplier to the power of the locks before it in the streak, and the lock lasts that many
    seconds or the maximum, whichever is less.
  */
  lemma {:induction false} LockLengthFromHistory(cfg: Config, run: seq<Attempt>) returns (nearest: int)
    requires Monotone(run) && run != [] && Told(cfg, run).LockedOut?
    ensures Streak(cfg, run) >= 1 && IsNearest(cfg, nearest, Streak(cfg, run) - 1)
    ensures Told(cfg, run).seconds == if nearest < cfg.lockMaxSeconds then nearest else cfg.lockMaxSeconds
  {
    StreakAgrees(cfg, run);
    LengthIsOfStreak(cfg, run);
    nearest := LengthOf(cfg, Streak(cfg, run));
  }

  lemma {:induction false} LengthOf(cfg: Config, streak: nat) returns (nearest: int)
    requires streak >= 1
    ensures IsNearest(cfg, nearest, streak - 1)
    ensures LockSeconds(cfg, streak) == if nearest < cfg.lockMaxSeconds then nearest else cfg.lockMaxSeconds
  {
    var x := Progressive(cfg.windowSeconds as real, cfg.multiplier, streak - 1);
    ProgressiveIsPower(cfg.windowSeconds as real, cfg.multiplier, streak - 1);
    nearest := Round(x);
    RoundIsNearest(x);
  }

  lemma {:induction false} RoundIsNearest(x: real)
    ensures x - 0.5 < Round(x) as real <= x + 0.5
  {}

  lemma {:induction false} LengthIsOfStreak(cfg: Config, run: seq<Attempt>)
    requires run != [] && Told(cfg, run).LockedOut?
    ensures After(cfg, run).streak.Some? && After(cfg, run).streak.value.count >= 1
    ensures Told(cfg, run).seconds == LockSeconds(cfg, After(cfg, run).streak.value.count)
  {}

  // ---------------------------------------------------------------- the counter against the lock

  /** The counter begun at `first` is dead at every instant at which the lock set at `t` is not reported. */
  ghost predicate CounterDiesFirst(cfg: Config, first: int, t: int, seconds: int) {
    t - first + 1000 * (seconds - cfg.windowSeconds) >= cfg.ttlFloor - 1
  }

  predicate InGap(cfg: Config, first: int, lock: Lock, now: int) {
    !Reported(cfg, Some(lock), now) && now < first + 1000 * cfg.windowSeconds
  }

  /** Exactly when the lock's own arithmetic allows it can a counter outlive the lock it caused. */
  lemma {:induction false} GapExactly(cfg: Config, first: int, t: int, seconds: int)
    ensures CounterDiesFirst(cfg, first, t, seconds) <==> forall now :: !InGap(cfg, first, Lock(t, seconds), now)
  {
    if !CounterDiesFirst(cfg, first, t, seconds) {
      assert InGap(cfg, first, Lock(t, seconds), t + 1000 * seconds - cfg.ttlFloor + 1);
    }
  }

  /** With an exact clock, or a first failure 499 ms before the lock, a long enough maximum suffices. */
  lemma {:induction false} LongLocksSuffice(cfg: Config, first: int, t: int, streak: nat)
    requires ValidConfig(cfg) && cfg.lockMaxSeconds >= cfg.windowSeconds && streak >= 1
    requires t - first >= cfg.ttlFloor - 1
    ensures CounterDiesFirst(cfg, first, t, LockSeconds(cfg, streak))
  {
    LockLengths(cfg, streak);
  }

  /** No lock of the run was set so soon after its first failure that the counter outlives it. */
  ghost predicate CountersDieFirst(cfg: Config, run: seq<Attempt>) {
    run == [] ||
    (CountersDieFirst(cfg, run[..|run| - 1]) &&
     (Told(cfg, run).LockedOut? ==>
        CounterDiesFirst(cfg, Epoch(cfg, run)[0], run[|run| - 1].now, Told(cfg, run).seconds)))
  }

  /** An epoch that has reached the limit is over before its lock stops being reported. */
  ghost predicate Settled(cfg: Config, epoch: seq<int>, last: Option<Lock>) {
    && |epoch| <= cfg.maxAttempts
    && (|epoch| == cfg.maxAttempts && epoch != [] ==>
          last.Some? && forall now :: !InGap(cfg, epoch[0], last.value, now))
  }

  lemma {:induction false} StaysSettled(cfg: Config, run: seq<Attempt>)
    requires ValidConfig(cfg) && Monotone(run) && CountersDieFirst(cfg, run)
    ensures Settled(cfg, Epoch(cfg, run), LastLock(cfg, run))
    ensures run != [] && Told(cfg, run).LockedOut? ==> |Epoch(cfg, run)| == cfg.maxAttempts
    ensures run != [] && Told(cfg, run).Failed? ==> 0 < |Epoch(cfg, run)| < cfg.maxAttempts
  {
    if run != [] {
      var before, t := run[..|run| - 1], run[|run| - 1];
      StaysSettled(cfg, before);
      MonotonePrefix(run);
      RunAgrees(cfg, before, t.now);
      RefusedWhileLocked(cfg, run);
      if Told(cfg, run).LockedOut? {
        GapExactly(cfg, Epoch(cfg, run)[0], t.now, Told(cfg, run).seconds);
      }
      if Told(cfg, run).LockedOut? || Told(cfg, run).Failed? {
        var epoch := Epoch(cfg, before);
        if EpochAlive(cfg, epoch, t.now) && |epoch| == cfg.maxAttempts {
          assert InGap(cfg, epoch[0], LastLock(cfg, before).value, t.now);
        }
      }
    }
  }

  /** And when one was, a single further failure can lock again: the condition cannot be weakened. */
  lemma {:induction false} OutlivingCounterMiscounts(cfg: Config, run: seq<Attempt>) returns (t: Attempt)
    requires ValidConfig(cfg) && Monotone(run) && run != [] && Told(cfg, run).LockedOut?
    requires !CounterDiesFirst(cfg, Epoch(cfg, run)[0], run[|run| - 1].now, Told(cfg, run).seconds)
    ensures Monotone(run + [t]) && Told(cfg, run + [t]).LockedOut?
    ensures |Epoch(cfg, run + [t])| == |Epoch(cfg, run)| + 1 > cfg.maxAttempts
  {
    var now, seconds := run[|run| - 1].now, Told(cfg, run).seconds;
    var free := now + 1000 * seconds - cfg.ttlFloor + 1;
    t := Attempt(if now <= free then free else now, true, false);
    RunAgrees(cfg, run, t.now);
    MonotonePrefix(run);
    RunAgrees(cfg, run[..|run| - 1], now);
    assert (run + [t])[..|run|] == run;
    assert EpochAlive(cfg, Epoch(cfg, run), now);
  }

  /**
    Every lock is set by exactly `maxAttempts` counted failures since the last success or counter
    expiry, a failure that sets no lock is below that number, and the first attempt that a lock no
    longer refuses finds the counter expired: for every run in which no counter outlives its lock.
  */
  lemma {:induction false} LockedByExactlyMax(cfg: Config, run: seq<Attempt>)
    requires ValidConfig(cfg) && Monotone(run) && run != [] && CountersDieFirst(cfg, run)
    ensures Told(cfg, run).LockedOut? ==> |Epoch(cfg, run)| == cfg.maxAttempts
    ensures Told(cfg, run).Failed? ==> 0 < |Epoch(cfg, run)| < cfg.maxAttempts
    ensures var before, now := run[..|run| - 1], run[|run| - 1].now;
            |Epoch(cfg, before)| == cfg.maxAttempts && Told(cfg, run) != Refused ==>
              !EpochAlive(cfg, Epoch(cfg, before), now) && !Alive(After(cfg, before).fail, now)
  {
    StaysSettled(cfg, run);
    var before, now := run[..|run| - 1], run[|run| - 1].now;
    MonotonePrefix(run);
    StaysSettled(cfg, before);
    RefusedWhileLocked(cfg, run);
    RunAgrees(cfg, before, now);
    if |Epoch(cfg, before)| == cfg.maxAttempts && Told(cfg, run) != Refused {
      assert !InGap(cfg, Epoch(cfg, before)[0], LastLock(cfg, before).value, now);
    }
  }

  /** With an exact clock and a maximum lock of at least the window, no counter outlives its lock in any run. */
  lemma {:induction false} ExactClock(cfg: Config, run: seq<Attempt>)
    requires ValidConfig(cfg) && cfg.ttlFloor == 1 && cfg.lockMaxSeconds >= cfg.windowSeconds && Monotone(run)
    ensures CountersDieFirst(cfg, run)
  {
    if run != [] {
      ExactClock(cfg, run[..|run| - 1]);
      if Told(cfg, run).LockedOut? {
        MonotonePrefix(run);
        RunAgrees(cfg, run, run[|run| - 1].now);
        EpochInOrder(cfg, run);
        LongLocksSuffice(cfg, Epoch(cfg, run)[0], run[|run| - 1].now, After(cfg, run).streak.value.count);
      }
    }
  }

  lemma {:induction false} EpochInOrder(cfg: Config, run: seq<Attempt>)
    requires Monotone(run) && run != []
    ensures forall i :: 0 <= i < |Epoch(cfg, run)| ==> Epoch(cfg, run)[i] <= run[|run| - 1].now
  {
    if |run| > 1 {
      MonotonePrefix(run);
      EpochInOrder(cfg, run[..|run| - 1]);
    }
  }

  /** With any clock it is enough that failures do not come faster than the clock's rounding. */
  lemma {:induction false} SlowFailures(cfg: Config, run: seq<Attempt>)
    requires ValidConfig(cfg) && cfg.lockMaxSeconds >= cfg.windowSeconds && Monotone(run) && cfg.maxAttempts >= 2
    requires forall i, j :: 0 <= i < j < |run| ==> run[j].now - run[i].now >= cfg.ttlFloor - 1
    ensures CountersDieFirst(cfg, run)
  {
    if run != [] {
      SlowFailures(cfg, run[..|run| - 1]);
      if Told(cfg, run).LockedOut? {
        var before, now := run[..|run| - 1], run[|run| - 1].now;
        MonotonePrefix(run);
        RunAgrees(cfg, run, now);
        RunAgrees(cfg, before, now);
        EpochFromRun(cfg, before);
        assert TimeOfAttempt(before, Epoch(cfg, before)[0]);
        var k :| 0 <= k < |before| && before[k].now == Epoch(cfg, before)[0];
        assert before[k] == run[k];
        LongLocksSuffice(cfg, Epoch(cfg, run)[0], now, After(cfg, run).streak.value.count);
      }
    }
  }

  predicate TimeOfAttempt(run: seq<Attempt>, t: int) { exists k :: 0 <= k < |run| && run[k].now == t }

  /** The times of an epoch are times of attempts. */
  lemma {:induction false} EpochFromRun(cfg: Config, run: seq<Attempt>)
    ensures forall i :: 0 <= i < |Epoch(cfg, run)| ==> TimeOfAttempt(run, Epoch(cfg, run)[i])
  {
    if run != [] {
      var before := run[..|run| - 1];
      EpochFromRun(cfg, before);
      forall t | TimeOfAttempt(before, t) ensures TimeOfAttempt(run, t) {
        var k :| 0 <= k < |before| && before[k].now == t;
        assert run[k] == before[k];
      }
      assert TimeOfAttempt(run, run[|run| - 1].now);
    }
  }

  const Rounding := Config(900, 3600, 1.0, 2, None, 500)

  const WrongAt0 := Attempt(0, true, false)
  const WrongLater := Attempt(899_600, true, false)

  /**
    A store that rounds to the nearest second stops reporting the lock 499 ms early: after two failures
    at once and a limit of two, a third failure at that moment is counted with them and locks again.
  */
  lemma {:induction false} RoundingMiscounts()
    ensures ValidConfig(Rounding) && Rounding.lockMaxSeconds >= Rounding.windowSeconds
    ensures var run := [WrongAt0, WrongAt0, WrongLater];
            Monotone(run) && Told(Rounding, run).LockedOut? && |Epoch(Rounding, run)| == 3 != Rounding.maxAttempts
  {
    var one, two, three := [WrongAt0], [WrongAt0, WrongAt0], [WrongAt0, WrongAt0, WrongLater];
    assert three[..2] == two && two[..1] == one && one[..0] == [];
    assert Told(Rounding, one) == Failed;
    assert After(Rounding, one) == Account(Some(Counter(1, 900_000)), None, None);
    assert LockSeconds(Rounding, 1) == 900;
    assert Told(Rounding, two) == LockedOut(900);
    assert After(Rounding, two).fail == Some(Counter(2, 900_000)) && After(Rounding, two).lock == Some(900_000);
    assert Epoch(Rounding, two) == [0, 0] by { assert Epoch(Rounding, one) == [0]; }
    assert Told(Rounding, three).LockedOut?;
  }
}
