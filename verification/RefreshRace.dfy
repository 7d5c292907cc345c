/** Overlapping refreshes: the database and key-store calls of `refreshTokens` as steps of any number of requests. */
module RefreshRace {
  import RT = RefreshTokens

  datatype Phase =
    | Presented
    | Unmarked
    | Expiring
    | Found(userId: string)
    | Deleted(userId: string)
    | Marked(userId: string)
    | Revoking
    | Rotated(next: RT.Token)
    | Refused

  datatype Request = Request(token: RT.Token, phase: Phase)

  /** `drawn` holds the token ids in use: no id is drawn twice. */
  datatype State = State(store: RT.State, drawn: set<string>, requests: map<int, Request>)

  datatype Event =
    | Present(h: int, token: RT.Token, now: int)
    | ReadMarker(h: int, now: int)
    | Find(h: int, now: int)
    | Delete(h: int)
    | SetMarker(h: int, now: int)
    | Issue(h: int, jti: string, now: int)
    | Revoke(h: int)
    | Login(userId: string, jti: string, now: int)
    | Logout(token: RT.Token)
    | LogoutAll(userId: string)

  const Initial := State(RT.Empty, {}, map[])

  function PhaseOf(s: State, h: int): Phase { if h in s.requests then s.requests[h].phase else Refused }

  function Move(s: State, h: int, p: Phase): State
    requires h in s.requests
  {
    s.(requests := s.requests[h := s.requests[h].(phase := p)])
  }

  function WithRows(s: State, rows: map<RT.Token, RT.Row>): State { s.(store := s.store.(rows := rows)) }

  function Signed(cfg: RT.Config, s: State, userId: string, jti: string, now: int): State {
    s.(store := RT.Generate(cfg, s.store, userId, jti, now), drawn := s.drawn + {jti})
  }

  /** The row is there and has not expired. */
  predicate Usable(s: State, t: RT.Token, now: int) { t in s.store.rows && s.store.rows[t].expiresAt >= now }

  /** One step; an event that is not possible in the state changes nothing. */
  function Step(cfg: RT.Config, s: State, e: Event): State {
    match e
    case Present(h, t, now) =>
      if h in s.requests then s
      else s.(requests := s.requests[h := Request(t, if RT.Verifies(s.store, t, now) then Presented else Refused)])
    case ReadMarker(h, now) =>
      if !PhaseOf(s, h).Presented? then s
      else Move(s, h, if RT.MarkedUsed(s.store, s.requests[h].token.jti, now) then Revoking else Unmarked)
    case Find(h, now) =>
      if !PhaseOf(s, h).Unmarked? then s
      else
        var t := s.requests[h].token;
        Move(s, h, if t !in s.store.rows then Revoking
                   else if s.store.rows[t].expiresAt < now then Expiring else Found(s.store.rows[t].userId))
    case Delete(h) =>
      if !PhaseOf(s, h).Found? && !PhaseOf(s, h).Expiring? then s
      else
        Move(WithRows(s, s.store.rows - {s.requests[h].token}), h,
             if PhaseOf(s, h).Found? then Deleted(PhaseOf(s, h).userId) else Refused)
    case SetMarker(h, now) =>
      if !PhaseOf(s, h).Deleted? then s
      else
        var t := s.requests[h].token;
        Move(s.(store := s.store.(markers := s.store.markers[t.jti := now + 1000 * RT.MarkerSeconds(t, now)])), h, Marked(PhaseOf(s, h).userId))
    case Issue(h, jti, now) =>
      if !PhaseOf(s, h).Marked? || jti in s.drawn then s
      else Move(Signed(cfg, s, PhaseOf(s, h).userId, jti, now), h, Rotated(RT.NewToken(cfg, PhaseOf(s, h).userId, jti, now)))
    case Revoke(h) =>
      if !PhaseOf(s, h).Revoking? then s
      else Move(WithRows(s, RT.WithoutUser(s.store.rows, s.requests[h].token.sub)), h, Refused)
    case Login(userId, jti, now) => if jti in s.drawn then s else Signed(cfg, s, userId, jti, now)
    case Logout(t) => WithRows(s, s.store.rows - {t})
    case LogoutAll(userId) => WithRows(s, RT.WithoutUser(s.store.rows, userId))
  }

  function After(cfg: RT.Config, run: seq<Event>): State {
    if run == [] then Initial else Step(cfg, After(cfg, run[..|run| - 1]), run[|run| - 1])
  }

  // ---------------------------------------------------------------- one request on its own

  /** The calls of one request in a row, all at one time. */
  function Alone(cfg: RT.Config, s: State, h: int, t: RT.Token, jti: string, now: int): State {
    var s1 := Step(cfg, Step(cfg, Step(cfg, s, Present(h, t, now)), ReadMarker(h, now)), Find(h, now));
    Step(cfg, Step(cfg, Step(cfg, Step(cfg, s1, Delete(h)), SetMarker(h, now)), Issue(h, jti, now)), Revoke(h))
  }

  lemma {:induction false} FirstHalf(cfg: RT.Config, s: State, h: int, t: RT.Token, now: int)
    requires h !in s.requests
    ensures var s1 := Step(cfg, Step(cfg, Step(cfg, s, Present(h, t, now)), ReadMarker(h, now)), Find(h, now));
            && s1.store == s.store && s1.drawn == s.drawn && h in s1.requests
            && s1.requests[h] == Request(t,
                 if !RT.Verifies(s.store, t, now) then Refused
                 else if RT.MarkedUsed(s.store, t.jti, now) || t !in s.store.rows then Revoking
                 else if s.store.rows[t].expiresAt < now then Expiring else Found(s.store.rows[t].userId))
  {}

  /** Taken in a row, the calls are one sequential rotation. */
  lemma {:induction false} AloneIsRotate(cfg: RT.Config, s: State, h: int, t: RT.Token, jti: string, now: int)
    requires h !in s.requests && jti !in s.drawn
    ensures var s', r := Alone(cfg, s, h, t, jti, now), RT.Rotate(cfg, s.store, t, jti, now);
            s'.store == r.0 && PhaseOf(s', h) == if r.1.Rotated? then Rotated(r.1.token) else Refused
  {
    FirstHalf(cfg, s, h, t, now);
    SecondHalf(cfg, Step(cfg, Step(cfg, Step(cfg, s, Present(h, t, now)), ReadMarker(h, now)), Find(h, now)), h, jti, now);
  }

  lemma {:induction false} SecondHalf(cfg: RT.Config, s: State, h: int, jti: string, now: int)
    requires jti !in s.drawn && h in s.requests
    requires var p := s.requests[h].phase; p.Refused? || p.Revoking? || p.Expiring? || p.Found?
    ensures var t, p := s.requests[h].token, s.requests[h].phase;
            var s' := Step(cfg, Step(cfg, Step(cfg, Step(cfg, s, Delete(h)), SetMarker(h, now)), Issue(h, jti, now)), Revoke(h));
            if p.Found? then
              var marked := s.store.(rows := s.store.rows - {t}, markers := s.store.markers[t.jti := now + 1000 * RT.MarkerSeconds(t, now)]);
              s'.store == RT.Generate(cfg, marked, p.userId, jti, now) && PhaseOf(s', h) == Rotated(RT.NewToken(cfg, p.userId, jti, now))
            else
              PhaseOf(s', h) == Refused &&
              s'.store == if p.Expiring? then s.store.(rows := s.store.rows - {t})
                          else if p.Revoking? then s.store.(rows := RT.WithoutUser(s.store.rows, t.sub)) else s.store
  {}

  // ---------------------------------------------------------------- when one request succeeds at most

  /** The request has seen the token's row and will be answered with a new token. */
  predicate Claims(p: Phase) { p.Found? || p.Deleted? || p.Marked? || p.Rotated? }

  predicate ClaimsToken(s: State, h: int, t: RT.Token) { h in s.requests && s.requests[h].token == t && Claims(s.requests[h].phase) }

  /** Another request has read the token's row and not yet deleted it. */
  predicate HeldByOther(s: State, h: int, t: RT.Token) {
    exists k :: k != h && k in s.requests && s.requests[k].token == t && s.requests[k].phase.Found?
  }

  /** The one event that can lead to two successes: the row is read between another request's read and its delete. */
  predicate Overlaps(s: State, e: Event, t: RT.Token) {
    && e.Find? && PhaseOf(s, e.h).Unmarked? && s.requests[e.h].token == t && Usable(s, t, e.now)
    && HeldByOther(s, e.h, t)
  }

  predicate NoOverlap(cfg: RT.Config, run: seq<Event>, t: RT.Token) {
    run == [] || (NoOverlap(cfg, run[..|run| - 1], t) && !Overlaps(After(cfg, run[..|run| - 1]), run[|run| - 1], t))
  }

  /** Every id that a row or a claim carries was drawn. */
  ghost predicate Ids(s: State) {
    && (forall t :: t in s.store.rows ==> t.jti in s.drawn)
    && (forall h :: h in s.requests && Claims(s.requests[h].phase) ==> s.requests[h].token.jti in s.drawn)
  }

  lemma {:induction false} StepIds(cfg: RT.Config, s: State, e: Event)
    requires Ids(s)
    ensures Ids(Step(cfg, s, e))
  {}

  lemma {:induction false} RunIds(cfg: RT.Config, run: seq<Event>)
    ensures Ids(After(cfg, run))
  {
    if run != [] {
      RunIds(cfg, run[..|run| - 1]);
      StepIds(cfg, After(cfg, run[..|run| - 1]), run[|run| - 1]);
    }
  }

  /** One request at most claims the token, and while the row is there it has only read it. */
  ghost predicate OneClaim(s: State, t: RT.Token) {
    && (forall h, k :: ClaimsToken(s, h, t) && ClaimsToken(s, k, t) ==> h == k)
    && (t in s.store.rows ==> forall h :: ClaimsToken(s, h, t) ==> s.requests[h].phase.Found?)
  }

  /** A request that finds the row claims it alone. */
  lemma {:induction false} FindKeepsClaim(cfg: RT.Config, s: State, e: Event, t: RT.Token)
    requires e.Find? && OneClaim(s, t) && !Overlaps(s, e, t)
    ensures OneClaim(Step(cfg, s, e), t)
  {
    var s' := Step(cfg, s, e);
    forall k | k != e.h ensures ClaimsToken(s', k, t) ==> ClaimsToken(s, k, t) && s'.requests[k] == s.requests[k] {}
    if t in s.store.rows && PhaseOf(s, e.h).Unmarked? {
      forall k | k != e.h && ClaimsToken(s, k, t) ensures HeldByOther(s, e.h, t) {}
    }
  }

  /** Every other step leaves the claims, or carries one of them on. */
  lemma {:induction false} ClaimsStay(cfg: RT.Config, s: State, e: Event, t: RT.Token, h: int)
    requires !e.Find? && ClaimsToken(Step(cfg, s, e), h, t)
    ensures ClaimsToken(s, h, t)
    ensures s.requests[h].phase.Found? && !Step(cfg, s, e).requests[h].phase.Found? ==> e == Delete(h)
  {}

  /** A row of a claimed token is an old row, and not that of a request that has deleted it. */
  lemma {:induction false} RowsStay(cfg: RT.Config, s: State, e: Event, t: RT.Token)
    requires Ids(s) && t.jti in s.drawn && t in Step(cfg, s, e).store.rows
    ensures t in s.store.rows
    ensures e.Delete? && ClaimsToken(s, e.h, t) ==> !s.requests[e.h].phase.Found?
  {}

  lemma {:induction false} StepKeepsClaim(cfg: RT.Config, s: State, e: Event, t: RT.Token)
    requires Ids(s) && OneClaim(s, t) && !Overlaps(s, e, t)
    ensures OneClaim(Step(cfg, s, e), t)
  {
    var s' := Step(cfg, s, e);
    if e.Find? {
      FindKeepsClaim(cfg, s, e, t);
    } else {
      forall h | ClaimsToken(s', h, t) ensures ClaimsToken(s, h, t) && (t in s'.store.rows ==> s'.requests[h].phase.Found?) {
        ClaimsStay(cfg, s, e, t, h);
        if t in s'.store.rows { RowsStay(cfg, s, e, t); }
      }
    }
  }

  lemma {:induction false} RunKeepsClaim(cfg: RT.Config, run: seq<Event>, t: RT.Token)
    requires NoOverlap(cfg, run, t)
    ensures OneClaim(After(cfg, run), t)
  {
    if run != [] {
      RunIds(cfg, run[..|run| - 1]);
      RunKeepsClaim(cfg, run[..|run| - 1], t);
      StepKeepsClaim(cfg, After(cfg, run[..|run| - 1]), run[|run| - 1], t);
    }
  }

  predicate Succeeded(s: State, h: int, t: RT.Token) {
    h in s.requests && s.requests[h].token == t && s.requests[h].phase.Rotated?
  }

  /**
    In every interleaving of refreshes, logins and logouts, a token is rotated for one request at most,
    if its row is never read between another request's read of it and its delete.
  */
  lemma {:induction false} OneSuccessAtMost(cfg: RT.Config, run: seq<Event>, t: RT.Token, h: int, k: int)
    requires NoOverlap(cfg, run, t) && Succeeded(After(cfg, run), h, t) && Succeeded(After(cfg, run), k, t)
    ensures h == k
  {
    RunKeepsClaim(cfg, run, t);
    assert ClaimsToken(After(cfg, run), h, t) && ClaimsToken(After(cfg, run), k, t);
  }

  // ---------------------------------------------------------------- and when two can

  lemma {:induction false} AfterSnoc(cfg: RT.Config, run: seq<Event>, e: Event)
    ensures After(cfg, run + [e]) == Step(cfg, After(cfg, run), e)
  {
    assert (run + [e])[..|run|] == run;
  }

  /** An id not drawn yet. */
  lemma {:induction false} AnotherId(drawn: set<string>) returns (jti: string)
    ensures jti !in drawn
  {
    var n := LongerThanAll(drawn);
    jti := seq(n, _ => 'x');
  }

  lemma {:induction false} LongerThanAll(ids: set<string>) returns (n: nat)
    ensures forall id :: id in ids ==> |id| < n
  {
    n := 0;
    if id: string :| id in ids {
      var m := LongerThanAll(ids - {id});
      n := if |id| < m then m else |id| + 1;
      assert forall other :: other in ids ==> other == id || other in ids - {id};
    }
  }

  /** A step that brings a request to its end, at the time `now` if it looks at the clock. */
  predicate Completes(e: Event, now: int) {
    e.Delete? || (e.SetMarker? && e.now == now) || (e.Issue? && e.now == now)
  }

  predicate AllComplete(more: seq<Event>, now: int) { forall i :: 0 <= i < |more| ==> Completes(more[i], now) }

  /** The request has seen a row of the user and will store a new one. */
  predicate Carries(p: Phase, userId: string) { (p.Found? || p.Deleted? || p.Marked?) && p.userId == userId }

  /** Whatever the others do, a request that has found a row goes on to success. */
  lemma {:induction false} CarrierSucceeds(cfg: RT.Config, run: seq<Event>, h: int, userId: string, now: int) returns (more: seq<Event>, next: RT.Token)
    requires Carries(PhaseOf(After(cfg, run), h), userId)
    ensures AllComplete(more, now)
    ensures var s, s' := After(cfg, run), After(cfg, run + more);
            && Succeeded(s', h, s.requests[h].token)
            && next in s'.store.rows && s'.store.rows[next].userId == userId
            && forall k :: k != h ==> (k in s'.requests <==> k in s.requests) && (k in s.requests ==> s'.requests[k] == s.requests[k])
  {
    var s := After(cfg, run);
    var jti := AnotherId(s.drawn);
    more := [Delete(h), SetMarker(h, now), Issue(h, jti, now)];
    next := RT.NewToken(cfg, userId, jti, now);
    var r1 := run + [Delete(h)];
    var r2 := r1 + [SetMarker(h, now)];
    AfterSnoc(cfg, run, Delete(h));
    AfterSnoc(cfg, r1, SetMarker(h, now));
    AfterSnoc(cfg, r2, Issue(h, jti, now));
    assert run + more == r2 + [Issue(h, jti, now)];
  }

  /**
    The condition is exact: from every run, a read of the row between another request's read and its
    delete has a continuation, at that very time, in which both requests are given a new token for the
    one they presented.
  */
  lemma {:induction false} OverlapLetsTwoSucceed(cfg: RT.Config, run: seq<Event>, e: Event, t: RT.Token) returns (more: seq<Event>, k: int)
    requires Overlaps(After(cfg, run), e, t)
    ensures AllComplete(more, e.now)
    ensures k != e.h && Succeeded(After(cfg, run + [e] + more), e.h, t) && Succeeded(After(cfg, run + [e] + more), k, t)
  {
    var s := After(cfg, run);
    k :| k != e.h && k in s.requests && s.requests[k].token == t && s.requests[k].phase.Found?;
    AfterSnoc(cfg, run, e);
    var s1 := After(cfg, run + [e]);
    var first, _ := CarrierSucceeds(cfg, run + [e], e.h, s1.requests[e.h].phase.userId, e.now);
    var second, _ := CarrierSucceeds(cfg, run + [e] + first, k, s.requests[k].phase.userId, e.now);
    more := first + second;
    Associate(run + [e], first, second);
  }

  lemma {:induction false} Associate(a: seq<Event>, b: seq<Event>, c: seq<Event>)
    ensures a + (b + c) == a + b + c
  {}

  const One := RT.Token("u", "1", 1000)
  const Cfg := RT.Config(1000, 1_000_000)

  /** So it happens: two requests present one token, and both read before either deletes. */
  function Race(): seq<Event> {
    [Login("u", "1", 0), Present(1, One, 0), Present(2, One, 0), ReadMarker(1, 0), ReadMarker(2, 0), Find(1, 0)]
  }

  lemma {:induction false} RaceOverlaps()
    ensures Overlaps(After(Cfg, Race()), Find(2, 0), One) && PhaseOf(After(Cfg, Race()), 1) == Found("u")
  {
    var r1 := [Login("u", "1", 0)];
    var r2, r3 := r1 + [Present(1, One, 0)], r1 + [Present(1, One, 0)] + [Present(2, One, 0)];
    var r4, r5 := r3 + [ReadMarker(1, 0)], r3 + [ReadMarker(1, 0)] + [ReadMarker(2, 0)];
    assert r1[..0] == [];
    AfterSnoc(Cfg, r1, Present(1, One, 0));
    AfterSnoc(Cfg, r2, Present(2, One, 0));
    AfterSnoc(Cfg, r3, ReadMarker(1, 0));
    AfterSnoc(Cfg, r4, ReadMarker(2, 0));
    AfterSnoc(Cfg, r5, Find(1, 0));
    assert Race() == r5 + [Find(1, 0)];
    var s := After(Cfg, Race());
    assert 1 in s.requests && s.requests[1].phase.Found?;
  }

  // ---------------------------------------------------------------- revocation

  predicate HasRow(s: State, userId: string) { exists t :: t in s.store.rows && s.store.rows[t].userId == userId }

  predicate InFlightFor(s: State, userId: string) { exists h :: h in s.requests && Carries(s.requests[h].phase, userId) }

  predicate NoLogin(more: seq<Event>, userId: string) {
    forall i :: 0 <= i < |more| ==> !(more[i].Login? && more[i].userId == userId)
  }

  /** The event deletes every row of the user. */
  predicate Revokes(s: State, e: Event, userId: string) {
    e == LogoutAll(userId) || (e.Revoke? && PhaseOf(s, e.h).Revoking? && s.requests[e.h].token.sub == userId)
  }

  lemma {:induction false} NoRowAfterRevocation(cfg: RT.Config, s: State, e: Event, userId: string)
    requires Revokes(s, e, userId)
    ensures !HasRow(Step(cfg, s, e), userId)
  {}

  /** Without a row and without a request that carries one, only a login brings a row back. */
  lemma {:induction false} StepStaysOut(cfg: RT.Config, s: State, e: Event, userId: string)
    requires !HasRow(s, userId) && !InFlightFor(s, userId) && !(e.Login? && e.userId == userId)
    ensures !HasRow(Step(cfg, s, e), userId) && !InFlightFor(Step(cfg, s, e), userId)
  {
    var s' := Step(cfg, s, e);
    forall t | t in s'.store.rows ensures s'.store.rows[t].userId != userId {
      if t in s.store.rows { assert s.store.rows[t].userId != userId; }
    }
    forall h | h in s'.requests ensures !Carries(s'.requests[h].phase, userId) {
      if h in s.requests { assert !Carries(s.requests[h].phase, userId); }
    }
  }

  lemma {:induction false} StaysOut(cfg: RT.Config, run: seq<Event>, more: seq<Event>, userId: string)
    requires !HasRow(After(cfg, run), userId) && !InFlightFor(After(cfg, run), userId) && NoLogin(more, userId)
    ensures !HasRow(After(cfg, run + more), userId) && !InFlightFor(After(cfg, run + more), userId)
  {
    if more == [] {
      assert run + more == run;
    } else {
      var init, e := more[..|more| - 1], more[|more| - 1];
      StaysOut(cfg, run, init, userId);
      AfterSnoc(cfg, run + init, e);
      assert run + more == run + init + [e];
      StepStaysOut(cfg, After(cfg, run + init), e, userId);
    }
  }

  /**
    A revocation lasts until the user's next login if and only if no refresh of that user is between
    its read of a row and its last step: otherwise that refresh stores a row, at any later time.
  */
  lemma {:induction false} RevocationLastsExactly(cfg: RT.Config, run: seq<Event>, e: Event, userId: string, now: int) returns (more: seq<Event>)
    requires Revokes(After(cfg, run), e, userId)
    ensures !HasRow(After(cfg, run + [e]), userId)
    ensures !InFlightFor(After(cfg, run), userId) ==>
              forall rest :: NoLogin(rest, userId) ==> !HasRow(After(cfg, run + [e] + rest), userId)
    ensures InFlightFor(After(cfg, run), userId) ==> AllComplete(more, now) && HasRow(After(cfg, run + [e] + more), userId)
  {
    var s := After(cfg, run);
    AfterSnoc(cfg, run, e);
    NoRowAfterRevocation(cfg, s, e, userId);
    SameFlights(cfg, s, e, userId);
    more := [];
    if InFlightFor(s, userId) {
      var s1 := After(cfg, run + [e]);
      var h :| h in s1.requests && Carries(s1.requests[h].phase, userId);
      var next;
      more, next := CarrierSucceeds(cfg, run + [e], h, userId, now);
    } else {
      forall rest | NoLogin(rest, userId) ensures !HasRow(After(cfg, run + [e] + rest), userId) {
        StaysOut(cfg, run + [e], rest, userId);
      }
    }
  }

  lemma {:induction false} SameFlights(cfg: RT.Config, s: State, e: Event, userId: string)
    requires Revokes(s, e, userId)
    ensures InFlightFor(Step(cfg, s, e), userId) <==> InFlightFor(s, userId)
  {
    var s' := Step(cfg, s, e);
    forall h ensures (h in s'.requests <==> h in s.requests) &&
                     (h in s.requests ==> Carries(s'.requests[h].phase, userId) == Carries(s.requests[h].phase, userId)) {}
  }

  /** So it happens: the user logs out everywhere while the first refresh of the race is under way. */
  lemma {:induction false} LogoutIsOvertaken()
    ensures Revokes(After(Cfg, Race()), LogoutAll("u"), "u") && InFlightFor(After(Cfg, Race()), "u")
  {
    RaceOverlaps();
    assert 1 in After(Cfg, Race()).requests;
  }
}
