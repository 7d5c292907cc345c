/** The AI guard's sliding-window log: a pruned list of accepted request times per user. */
module SlidingWindow {

  const WINDOW_MS := 60_000

  datatype Request = Request(user: string, now: int)

  type Log = map<string, seq<int>>

  /** The times no more than a window before `now`. */
  function Recent(times: seq<int>, now: int): (r: seq<int>)
    ensures |r| <= |times|
  {
    if times == [] then []
    else
      var last := times[|times| - 1];
      Recent(times[..|times| - 1], now) + (if now - last <= WINDOW_MS then [last] else [])
  }

  lemma {:induction false} RecentIsRecent(times: seq<int>, now: int)
    ensures forall i :: 0 <= i < |Recent(times, now)| ==> now - Recent(times, now)[i] <= 60_000
  {
    if times != [] { RecentIsRecent(times[..|times| - 1], now); }
  }

  function Logged(hits: Log, user: string): seq<int> {
    if user in hits then hits[user] else []
  }

  predicate Allows(hits: Log, max: nat, r: Request) {
    |Recent(Logged(hits, r.user), r.now)| < max
  }

  function Step(hits: Log, max: nat, r: Request): Log {
    if Allows(hits, max, r) then hits[r.user := Recent(Logged(hits, r.user), r.now) + [r.now]] else hits
  }

  class AiRateLimitGuard {
    var hits: Log
    const maxRequests: nat

    constructor (maxRequests: nat)
      ensures hits == map[] && this.maxRequests == maxRequests
    {
      this.maxRequests := maxRequests;
      hits := map[];
    }

    /** False stands for the thrown 429. */
    method CanActivate(user: string, now: int) returns (allowed: bool)
      modifies this`hits
      ensures allowed == Allows(old(hits), maxRequests, Request(user, now))
      ensures hits == Step(old(hits), maxRequests, Request(user, now))
      ensures !allowed ==> hits == old(hits)
      ensures allowed ==>
                && user in hits && hits == old(hits)[user := hits[user]]
                && hits[user] != [] && hits[user][|hits[user]| - 1] == now
                && forall i :: 0 <= i < |hits[user]| ==> now - hits[user][i] <= 60_000
    {
      var previous := if user in hits then hits[user] else [];
      var recent := Recent(previous, now);
      RecentIsRecent(previous, now);
      if |recent| >= maxRequests {
        return false;
      }
      recent := recent + [now];
      hits := hits[user := recent];
      allowed := true;
    }
  }

  // ---------------------------------------------------------------- runs

  predicate Monotone(run: seq<Request>) {
    forall i, j :: 0 <= i < j < |run| ==> run[i].now <= run[j].now
  }

  /** The guard's log after a run from the empty log. */
  function LogAfter(max: nat, run: seq<Request>): Log {
    if run == [] then map[] else Step(LogAfter(max, run[..|run| - 1]), max, run[|run| - 1])
  }

  /** Every request of `user` accepted in the run: the full history, never pruned. */
  function Accepted(max: nat, run: seq<Request>, user: string): seq<int> {
    if run == [] then []
    else
      var before, r := run[..|run| - 1], run[|run| - 1];
      Accepted(max, before, user) +
      (if r.user == user && Allows(LogAfter(max, before), max, r) then [r.now] else [])
  }

  /** How many of the times lie in the closed interval of one window that starts at `from`. */
  function InWindow(times: seq<int>, from: int): nat {
    if times == [] then 0
    else
      var last := times[|times| - 1];
      InWindow(times[..|times| - 1], from) + (if from <= last <= from + 60_000 then 1 else 0)
  }

  lemma {:induction false} RecentSnoc(times: seq<int>, t: int, now: int)
    ensures Recent(times + [t], now) == Recent(times, now) + (if now - t <= WINDOW_MS then [t] else [])
  {
    assert (times + [t])[..|times|] == times;
  }

  /** Pruning at an earlier time loses nothing that is still recent. */
  lemma {:induction false} RecentNested(times: seq<int>, earlier: int, now: int)
    requires earlier <= now
    ensures Recent(Recent(times, earlier), now) == Recent(times, now)
  {
    if times != [] {
      var init, last := times[..|times| - 1], times[|times| - 1];
      RecentNested(init, earlier, now);
      RecentSnoc(Recent(init, earlier), last, now);
      assert Recent(init, earlier) + [] == Recent(init, earlier);
    }
  }

  /** At any time from the last request on, the pruned log holds the recent part of the full history. */
  lemma {:induction false} LogAgrees(max: nat, run: seq<Request>, user: string, now: int)
    requires Monotone(run) && (run != [] ==> run[|run| - 1].now <= now)
    ensures Recent(Logged(LogAfter(max, run), user), now) == Recent(Accepted(max, run, user), now)
  {
    if run != [] {
      var before, r := run[..|run| - 1], run[|run| - 1];
      var log, history := Logged(LogAfter(max, before), user), Accepted(max, before, user);
      LogAgrees(max, before, user, now);
      if r.user == user && Allows(LogAfter(max, before), max, r) {
        RecentSnoc(Recent(log, r.now), r.now, now);
        RecentSnoc(history, r.now, now);
        RecentNested(log, r.now, now);
      } else {
        assert history + [] == history;
      }
    }
  }

  /** The pruned log decides every request as the full history would. */
  lemma {:induction false} DecisionAgrees(max: nat, run: seq<Request>, r: Request)
    requires Monotone(run + [r])
    ensures Allows(LogAfter(max, run), max, r) <==> |Recent(Accepted(max, run, r.user), r.now)| < max
    ensures Allows(LogAfter(max, run), max, r) <==> InWindow(Accepted(max, run, r.user), r.now - 60_000) < max
  {
    assert forall i :: 0 <= i < |run| ==> run[i] == (run + [r])[i];
    assert (run + [r])[|run|] == r;
    LogAgrees(max, run, r.user, r.now);
    AcceptedBefore(max, run, r.user, r.now);
    RecentIsInWindow(Accepted(max, run, r.user), r.now);
  }

  lemma {:induction false} AcceptedBefore(max: nat, run: seq<Request>, user: string, now: int)
    requires Monotone(run) && (run != [] ==> run[|run| - 1].now <= now)
    ensures forall i :: 0 <= i < |Accepted(max, run, user)| ==> Accepted(max, run, user)[i] <= now
  {
    if run != [] { AcceptedBefore(max, run[..|run| - 1], user, now); }
  }

  /** Among times up to now, the recent ones are those of the last minute, its ends included. */
  lemma {:induction false} RecentIsInWindow(times: seq<int>, now: int)
    requires forall i :: 0 <= i < |times| ==> times[i] <= now
    ensures |Recent(times, now)| == InWindow(times, now - 60_000)
  {
    if times != [] { RecentIsInWindow(times[..|times| - 1], now); }
  }

  lemma {:induction false} InWindowRecent(times: seq<int>, from: int, now: int)
    requires now <= from + WINDOW_MS
    ensures InWindow(times, from) <= |Recent(times, now)|
  {
    if times != [] { InWindowRecent(times[..|times| - 1], from, now); }
  }

  /** No closed interval of one window ever holds more than `max` accepted requests of one user. */
  lemma {:induction false} WindowBound(max: nat, run: seq<Request>, user: string, from: int)
    requires Monotone(run)
    ensures InWindow(Accepted(max, run, user), from) <= max
  {
    if run != [] {
      var before, r := run[..|run| - 1], run[|run| - 1];
      var history := Accepted(max, before, user);
      WindowBound(max, before, user, from);
      if r.user == user && Allows(LogAfter(max, before), max, r) {
        assert before + [r] == run;
        DecisionAgrees(max, before, r);
        assert (history + [r.now])[..|history|] == history;
        if from <= r.now <= from + WINDOW_MS {
          InWindowRecent(history, from, r.now);
        }
      } else {
        assert history + [] == history;
      }
    }
  }

  /** The requests of one user. */
  function Only(run: seq<Request>, user: string): seq<Request> {
    if run == [] then []
    else
      var r := run[|run| - 1];
      Only(run[..|run| - 1], user) + (if r.user == user then [r] else [])
  }

  lemma {:induction false} RunSnoc(max: nat, run: seq<Request>, r: Request, user: string)
    ensures LogAfter(max, run + [r]) == Step(LogAfter(max, run), max, r)
    ensures r.user == user ==>
              Accepted(max, run + [r], user) ==
              Accepted(max, run, user) + (if Allows(LogAfter(max, run), max, r) then [r.now] else [])
    ensures r.user != user ==>
              Accepted(max, run + [r], user) == Accepted(max, run, user)
              && Logged(LogAfter(max, run + [r]), user) == Logged(LogAfter(max, run), user)
  {
    assert (run + [r])[..|run|] == run;
  }

  /** The two runs look the same to one user. */
  ghost predicate Alike(max: nat, a: seq<Request>, b: seq<Request>, user: string) {
    && Logged(LogAfter(max, a), user) == Logged(LogAfter(max, b), user)
    && Accepted(max, a, user) == Accepted(max, b, user)
  }

  lemma {:induction false} OwnRequest(max: nat, a: seq<Request>, b: seq<Request>, r: Request)
    requires Alike(max, a, b, r.user)
    ensures Alike(max, a + [r], b + [r], r.user)
  {
    RunSnoc(max, a, r, r.user);
    RunSnoc(max, b, r, r.user);
  }

  lemma {:induction false} OtherRequest(max: nat, a: seq<Request>, b: seq<Request>, r: Request, user: string)
    requires Alike(max, a, b, user) && r.user != user
    ensures Alike(max, a + [r], b, user)
  {
    RunSnoc(max, a, r, user);
  }

  lemma {:induction false} OnlySnoc(run: seq<Request>, r: Request, user: string)
    ensures Only(run + [r], user) == if r.user == user then Only(run, user) + [r] else Only(run, user)
  {
    assert (run + [r])[..|run|] == run;
  }

  lemma {:induction false} OneMore(max: nat, run: seq<Request>, r: Request, user: string)
    requires Alike(max, run, Only(run, user), user)
    ensures Alike(max, run + [r], Only(run + [r], user), user)
  {
    OnlySnoc(run, r, user);
    if r.user == user {
      OwnRequest(max, run, Only(run, user), r);
    } else {
      OtherRequest(max, run, Only(run, user), r, user);
    }
  }

  /** Users do not see each other: a user's log and history are those of the run of that user alone. */
  lemma {:induction false} UsersIndependent(max: nat, run: seq<Request>, user: string)
    ensures Alike(max, run, Only(run, user), user)
  {
    if run == [] {
      assert Only(run, user) == run;
    } else {
      var before, r := run[..|run| - 1], run[|run| - 1];
      assert run == before + [r];
      UsersIndependent(max, before, user);
      OneMore(max, before, r, user);
    }
  }
}
