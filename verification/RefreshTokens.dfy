/** Refresh-token rotation with reuse detection: token rows in the database, used markers with an expiry. */
module RefreshTokens {
  import opened Outcomes

  /** The claims of a signed refresh token; `exp` is in seconds. */
  datatype Token = Token(sub: string, jti: string, exp: int)

  datatype Row = Row(userId: string, expiresAt: int)

  datatype Config = Config(jwtSeconds: int, rowMs: int)

  /** `signed` holds every token the service has signed: a token's signature verifies if it is there. */
  datatype State = State(signed: set<Token>, rows: map<Token, Row>, markers: map<string, int>)

  datatype Event =
    | Issue(now: int, userId: string, jti: string)
    | Refresh(now: int, token: Token, jti: string)
    | Logout(now: int, token: Token)
    | LogoutAll(now: int, userId: string)

  datatype Outcome = Done | Invalid | ReuseDetected | Expired | Rotated(token: Token)

  /** `Math.floor(ms / 1000)` */
  function Seconds(ms: int): int { ms / 1000 }

  predicate Verifies(s: State, t: Token, now: int) { t in s.signed && Seconds(now) < t.exp }

  predicate MarkedUsed(s: State, jti: string, now: int) { jti in s.markers && now < s.markers[jti] }

  function MarkerSeconds(t: Token, now: int): int {
    if t.exp - Seconds(now) < 1 then 1 else t.exp - Seconds(now)
  }

  function NewToken(cfg: Config, userId: string, jti: string, now: int): Token {
    Token(userId, jti, Seconds(now) + cfg.jwtSeconds)
  }

  function Generate(cfg: Config, s: State, userId: string, jti: string, now: int): State {
    var t := NewToken(cfg, userId, jti, now);
    s.(signed := s.signed + {t}, rows := s.rows[t := Row(userId, now + cfg.rowMs)])
  }

  function WithoutUser(rows: map<Token, Row>, userId: string): map<Token, Row> {
    map t | t in rows && rows[t].userId != userId :: rows[t]
  }

  function Rotate(cfg: Config, s: State, t: Token, jti: string, now: int): (State, Outcome) {
    if !Verifies(s, t, now) then (s, Invalid)
    else if MarkedUsed(s, t.jti, now) || t !in s.rows then (s.(rows := WithoutUser(s.rows, t.sub)), ReuseDetected)
    else
      var row := s.rows[t];
      var s1 := s.(rows := s.rows - {t});
      if row.expiresAt < now then (s1, Expired)
      else
        var s2 := s1.(markers := s1.markers[t.jti := now + 1000 * MarkerSeconds(t, now)]);
        (Generate(cfg, s2, row.userId, jti, now), Rotated(NewToken(cfg, row.userId, jti, now)))
  }

  function Step(cfg: Config, s: State, e: Event): (State, Outcome) {
    match e
    case Issue(now, userId, jti) => (Generate(cfg, s, userId, jti, now), Done)
    case Refresh(now, t, jti) => Rotate(cfg, s, t, jti, now)
    case Logout(_, t) => (s.(rows := s.rows - {t}), Done)
    case LogoutAll(_, userId) => (s.(rows := WithoutUser(s.rows, userId)), Done)
  }

  class TokenService {
    const cfg: Config
    var signed: set<Token>
    var rows: map<Token, Row>
    var markers: map<string, int>

    constructor (cfg: Config)
      ensures this.cfg == cfg && Contents() == Empty
    {
      this.cfg := cfg;
      signed, rows, markers := {}, map[], map[];
    }

    function Contents(): State
      reads this
    {
      State(signed, rows, markers)
    }

    method GenerateTokens(userId: string, jti: string, now: int) returns (t: Token)
      modifies this`signed, this`rows
      ensures t == NewToken(cfg, userId, jti, now)
      ensures Contents() == Generate(cfg, old(Contents()), userId, jti, now)
    {
      t := Token(userId, jti, Seconds(now) + cfg.jwtSeconds);
      signed := signed + {t};
      rows := rows[t := Row(userId, now + cfg.rowMs)];
    }

    method DeleteUserRows(userId: string)
      modifies this`rows
      ensures rows == WithoutUser(old(rows), userId)
    {
      rows := map t | t in rows && rows[t].userId != userId :: rows[t];
    }

    method RefreshTokens(t: Token, jti: string, now: int) returns (r: Outcome)
      modifies this
      ensures (Contents(), r) == Rotate(cfg, old(Contents()), t, jti, now)
    {
      if !(t in signed && Seconds(now) < t.exp) {
        return Invalid;
      }
      if t.jti in markers && now < markers[t.jti] {
        DeleteUserRows(t.sub);
        return ReuseDetected;
      }
      if t !in rows {
        DeleteUserRows(t.sub);
        return ReuseDetected;
      }
      var stored := rows[t];
      if stored.expiresAt < now {
        rows := rows - {t};
        return Expired;
      }
      rows := rows - {t};
      markers := markers[t.jti := now + 1000 * MarkerSeconds(t, now)];
      var next := GenerateTokens(stored.userId, jti, now);
      r := Rotated(next);
    }

    method Logout(t: Token)
      modifies this`rows
      ensures rows == old(rows) - {t}
    {
      if t in rows {
        rows := rows - {t};
      }
    }

    method LogoutAllSessions(userId: string)
      modifies this`rows
      ensures rows == WithoutUser(old(rows), userId)
    {
      DeleteUserRows(userId);
    }
  }

  // ---------------------------------------------------------------- runs

  const Empty := State({}, map[], map[])

  function After(cfg: Config, run: seq<Event>): State {
    if run == [] then Empty else Step(cfg, After(cfg, run[..|run| - 1]), run[|run| - 1]).0
  }

  function Told(cfg: Config, run: seq<Event>): Outcome
    requires run != []
  {
    Step(cfg, After(cfg, run[..|run| - 1]), run[|run| - 1]).1
  }

  /** The token ids drawn so far. */
  function Drawn(run: seq<Event>): set<string> {
    if run == [] then {}
    else
      var e := run[|run| - 1];
      Drawn(run[..|run| - 1]) + (if e.Issue? || e.Refresh? then {e.jti} else {})
  }

  /** The clock never goes back, and a token id is never drawn twice. */
  predicate ProperRun(run: seq<Event>) {
    run == [] ||
    var before, e := run[..|run| - 1], run[|run| - 1];
    && ProperRun(before)
    && (before != [] ==> before[|before| - 1].now <= e.now)
    && (e.Issue? || e.Refresh? ==> e.jti !in Drawn(before))
  }

  /** How often the token has been accepted for a rotation. */
  function Accepted(cfg: Config, run: seq<Event>, t: Token): nat {
    if run == [] then 0
    else
      var e := run[|run| - 1];
      Accepted(cfg, run[..|run| - 1], t) + (if e.Refresh? && e.token == t && Told(cfg, run).Rotated? then 1 else 0)
  }

  /** Every id in use was drawn, and no two tokens share one. */
  ghost predicate Ids(s: State, drawn: set<string>) {
    && (forall t :: t in s.signed ==> t.jti in drawn)
    && (forall j :: j in s.markers ==> j in drawn)
    && (forall t, u :: t in s.signed && u in s.signed && t.jti == u.jti ==> t == u)
  }

  lemma {:induction false} RunIds(cfg: Config, run: seq<Event>)
    requires ProperRun(run)
    ensures Ids(After(cfg, run), Drawn(run))
  {
    if run != [] { RunIds(cfg, run[..|run| - 1]); }
  }

  /** Where one token stands: stored ones were signed and never accepted, used ones are marked as long as they verify. */
  ghost predicate Inv(s: State, t: Token, accepted: nat) {
    && (t in s.rows ==> t in s.signed && s.rows[t].userId == t.sub && accepted == 0)
    && accepted <= 1
    && (accepted > 0 ==> t in s.signed && t.jti in s.markers && 1000 * t.exp <= s.markers[t.jti])
    && (t in s.signed && t.jti in s.markers ==> accepted > 0)
  }

  lemma {:induction false} MarkerOutlives(t: Token, now: int)
    requires Seconds(now) < t.exp
    ensures 1000 * t.exp <= now + 1000 * MarkerSeconds(t, now)
  {}

  lemma {:induction false} StepKeepsInv(cfg: Config, s: State, drawn: set<string>, e: Event, t: Token, accepted: nat)
    requires Ids(s, drawn) && (e.Issue? || e.Refresh? ==> e.jti !in drawn)
    requires Inv(s, t, accepted)
    ensures var (s', told) := Step(cfg, s, e);
            Inv(s', t, accepted + (if e.Refresh? && e.token == t && told.Rotated? then 1 else 0))
  {
    if e.Refresh? && Verifies(s, e.token, e.now) {
      MarkerOutlives(e.token, e.now);
    }
  }

  lemma {:induction false} RunInv(cfg: Config, run: seq<Event>, t: Token)
    requires ProperRun(run)
    ensures Inv(After(cfg, run), t, Accepted(cfg, run, t))
  {
    if run != [] {
      var before := run[..|run| - 1];
      RunIds(cfg, before);
      RunInv(cfg, before, t);
      StepKeepsInv(cfg, After(cfg, before), Drawn(before), run[|run| - 1], t, Accepted(cfg, before, t));
    }
  }

  /**
    In every run a token is accepted at most once; a stored one was signed, belongs to its subject
    and was never accepted; and the marker of an accepted one is alive whenever the token still verifies.
  */
  lemma {:induction false} AcceptedAtMostOnce(cfg: Config, run: seq<Event>, t: Token, now: int)
    requires ProperRun(run)
    ensures Accepted(cfg, run, t) <= 1
    ensures var s := After(cfg, run);
            && (t in s.rows ==> t in s.signed && s.rows[t].userId == t.sub && Accepted(cfg, run, t) == 0)
            && (Accepted(cfg, run, t) == 1 && Verifies(s, t, now) ==> MarkedUsed(s, t.jti, now))
  {
    RunInv(cfg, run, t);
  }

  /** A refresh succeeds exactly for a stored token that verifies and whose row has not expired. */
  lemma {:induction false} AcceptedExactly(cfg: Config, run: seq<Event>)
    requires ProperRun(run) && run != [] && run[|run| - 1].Refresh?
    ensures var s, e := After(cfg, run[..|run| - 1]), run[|run| - 1];
            Told(cfg, run).Rotated? <==> e.token in s.rows && Verifies(s, e.token, e.now) && e.now <= s.rows[e.token].expiresAt
  {
    RunInv(cfg, run[..|run| - 1], run[|run| - 1].token);
  }

  predicate HasRows(s: State, userId: string) { exists t :: t in s.rows && s.rows[t].userId == userId }

  /** Presenting a token that verifies but is not stored leaves its subject with no stored token. */
  lemma {:induction false} ReuseRevokesAll(cfg: Config, run: seq<Event>)
    requires ProperRun(run) && run != [] && run[|run| - 1].Refresh?
    requires var s, e := After(cfg, run[..|run| - 1]), run[|run| - 1];
             Verifies(s, e.token, e.now) && (e.token !in s.rows || Accepted(cfg, run[..|run| - 1], e.token) > 0)
    ensures Told(cfg, run) == ReuseDetected && !HasRows(After(cfg, run), run[|run| - 1].token.sub)
    ensures forall u :: u in After(cfg, run[..|run| - 1]).rows && u.sub != run[|run| - 1].token.sub ==> u in After(cfg, run).rows
  {
    var before, e := run[..|run| - 1], run[|run| - 1];
    RunInv(cfg, before, e.token);
    forall u | u in After(cfg, before).rows && u.sub != e.token.sub ensures u in After(cfg, run).rows {
      RunInv(cfg, before, u);
    }
  }

  /** What is stored after more events was stored before them or signed since. */
  lemma {:induction false} StoredBeforeOrSince(cfg: Config, run: seq<Event>, more: seq<Event>, t: Token)
    requires ProperRun(run + more)
    ensures After(cfg, run).signed <= After(cfg, run + more).signed
    ensures t in After(cfg, run + more).rows ==> t in After(cfg, run).rows || t !in After(cfg, run).signed
  {
    if more == [] {
      assert run + more == run;
    } else {
      var init, e := more[..|more| - 1], more[|more| - 1];
      assert (run + more)[..|run + more| - 1] == run + init;
      StoredBeforeOrSince(cfg, run, init, t);
      RunIds(cfg, run + init);
    }
  }

  /** Once a user's tokens are revoked, only tokens signed afterwards are ever accepted for that user. */
  lemma {:induction false} RevokedForGood(cfg: Config, run: seq<Event>, more: seq<Event>, e: Event)
    requires e.Refresh? && ProperRun(run + more + [e]) && !HasRows(After(cfg, run), e.token.sub)
    requires Told(cfg, run + more + [e]).Rotated?
    ensures e.token !in After(cfg, run).signed && e.token in After(cfg, run + more).signed
  {
    var t := e.token;
    assert (run + more + [e])[..|run + more|] == run + more;
    AcceptedExactly(cfg, run + more + [e]);
    StoredBeforeOrSince(cfg, run, more, t);
    ProperPrefix(run, more);
    RunInv(cfg, run, t);
  }

  lemma {:induction false} ProperPrefix(run: seq<Event>, more: seq<Event>)
    requires ProperRun(run + more)
    ensures ProperRun(run)
  {
    if more == [] {
      assert run + more == run;
    } else {
      assert (run + more)[..|run + more| - 1] == run + more[..|more| - 1];
      ProperPrefix(run, more[..|more| - 1]);
    }
  }

  lemma {:induction false} SwapKeepsSize(rows: map<Token, Row>, rows': map<Token, Row>, t: Token, next: Token)
    requires t in rows && next !in rows && rows'.Keys == rows.Keys - {t} + {next}
    ensures |rows'| == |rows|
  {
    assert |rows.Keys - {t}| == |rows.Keys| - 1;
    assert |rows'| == |rows'.Keys| && |rows| == |rows.Keys|;
  }

  /** A rotation replaces one stored token of the user by one new one and touches no other. */
  lemma {:induction false} RotationConserves(cfg: Config, run: seq<Event>)
    requires ProperRun(run) && run != [] && Told(cfg, run).Rotated?
    ensures var s, s', t, next := After(cfg, run[..|run| - 1]), After(cfg, run), run[|run| - 1].token, Told(cfg, run).token;
            && next.sub == t.sub && next !in s.signed
            && s'.rows.Keys == s.rows.Keys - {t} + {next} && |s'.rows| == |s.rows|
            && forall u :: u in s.rows && u != t ==> s'.rows[u] == s.rows[u]
  {
    var before, e := run[..|run| - 1], run[|run| - 1];
    RunInv(cfg, before, e.token);
    RunIds(cfg, before);
    var s, next := After(cfg, before), Told(cfg, run).token;
    RunInv(cfg, before, next);
    assert After(cfg, run).rows.Keys == s.rows.Keys - {e.token} + {next};
    SwapKeepsSize(s.rows, After(cfg, run).rows, e.token, next);
  }

  // ---------------------------------------------------------------- answers from the history

  /** The last event draws the token: a login, or a successful refresh of a token of the same user, at that time. */
  predicate Draws(cfg: Config, run: seq<Event>, t: Token)
    requires run != []
  {
    var e := run[|run| - 1];
    var drawn := e.now / 1000 + cfg.jwtSeconds == t.exp;
    match e
    case Issue(_, userId, jti) => drawn && t.sub == userId && t.jti == jti
    case Refresh(_, used, jti) => Told(cfg, run).Rotated? && drawn && t.sub == used.sub && t.jti == jti
    case _ => false
  }

  /** The last event ends the token: it is used, logged out or found expired, or its user's tokens are revoked. */
  predicate Ends(cfg: Config, run: seq<Event>, t: Token)
    requires run != []
  {
    var e, told := run[|run| - 1], Told(cfg, run);
    match e
    case Issue(_, _, _) => false
    case Refresh(_, shown, _) => ((told.Rotated? || told.Expired?) && shown == t) || (told.ReuseDetected? && shown.sub == t.sub)
    case Logout(_, ended) => ended == t
    case LogoutAll(_, userId) => userId == t.sub
  }

  /** When the token was drawn, if it was. */
  function DrawnAt(cfg: Config, run: seq<Event>, t: Token): Option<int> {
    if run == [] then None
    else if Draws(cfg, run, t) then Some(run[|run| - 1].now)
    else DrawnAt(cfg, run[..|run| - 1], t)
  }

  /** The token has been drawn and nothing has ended it since. */
  predicate Usable(cfg: Config, run: seq<Event>, t: Token) {
    run != [] && (Draws(cfg, run, t) || (!Ends(cfg, run, t) && Usable(cfg, run[..|run| - 1], t)))
  }

  /** A token is signed if it was drawn, and stored, with the row's lifetime from then on, while it is usable. */
  ghost predicate Recorded(cfg: Config, s: State, t: Token, drawnAt: Option<int>, usable: bool) {
    && (t in s.signed <==> drawnAt.Some?)
    && (t in s.rows <==> usable)
    && (usable ==> drawnAt.Some? && s.rows[t] == Row(t.sub, drawnAt.value + cfg.rowMs))
  }

  lemma {:induction false} DrawRecorded(cfg: Config, s: State, t: Token, userId: string, jti: string, now: int,
                                        drawnAt: Option<int>, usable: bool)
    requires Recorded(cfg, s, t, drawnAt, usable)
    ensures var draws := t == Token(userId, jti, now / 1000 + cfg.jwtSeconds);
            Recorded(cfg, Generate(cfg, s, userId, jti, now), t, if draws then Some(now) else drawnAt, draws || usable)
  {}

  lemma {:induction false} RunRecorded(cfg: Config, run: seq<Event>, t: Token)
    requires ProperRun(run)
    ensures Recorded(cfg, After(cfg, run), t, DrawnAt(cfg, run, t), Usable(cfg, run, t))
  {
    if run != [] {
      var before, e := run[..|run| - 1], run[|run| - 1];
      var s, told := After(cfg, before), Told(cfg, run);
      RunRecorded(cfg, before, t);
      match e
      case Issue(now, userId, jti) => DrawRecorded(cfg, s, t, userId, jti, now, DrawnAt(cfg, before, t), Usable(cfg, before, t));
      case Refresh(now, shown, jti) =>
        RunInv(cfg, before, shown);
        RunInv(cfg, before, t);
        if told.Rotated? {
          RotationRecorded(cfg, s, t, e, DrawnAt(cfg, before, t), Usable(cfg, before, t), Drawn(before), before);
        }
      case Logout(_, _) =>
      case LogoutAll(_, _) => RunInv(cfg, before, t);
    }
  }

  lemma {:induction false} RotationRecorded(cfg: Config, s: State, t: Token, e: Event, drawnAt: Option<int>, usable: bool,
                                            drawn: set<string>, before: seq<Event>)
    requires ProperRun(before) && s == After(cfg, before) && drawn == Drawn(before) && e.Refresh? && e.jti !in drawn
    requires Recorded(cfg, s, t, drawnAt, usable) && Rotate(cfg, s, e.token, e.jti, e.now).1.Rotated?
    ensures var draws := t == Token(e.token.sub, e.jti, e.now / 1000 + cfg.jwtSeconds);
            Recorded(cfg, Rotate(cfg, s, e.token, e.jti, e.now).0, t, if draws then Some(e.now) else drawnAt,
                     draws || (usable && t != e.token))
  {
    RunInv(cfg, before, e.token);
    RunIds(cfg, before);
  }

  /**
    Every answer to a refresh from the events and their outcomes alone: a token drawn at time `at` is
    rotated exactly while it is usable, its seconds are not up and the row's lifetime is not over.
  */
  lemma {:induction false} RefreshAnswers(cfg: Config, run: seq<Event>)
    requires ProperRun(run) && run != [] && run[|run| - 1].Refresh?
    ensures var before, e, told := run[..|run| - 1], run[|run| - 1], Told(cfg, run);
            var t := e.token;
            var at, usable := DrawnAt(cfg, before, t), Usable(cfg, before, t);
            var inTime := at.Some? && e.now / 1000 < at.value / 1000 + cfg.jwtSeconds;
            && (told.Invalid? <==> !inTime)
            && (told.ReuseDetected? <==> inTime && !usable)
            && (told.Expired? <==> inTime && usable && e.now > at.value + cfg.rowMs)
            && (told.Rotated? <==> inTime && usable && e.now <= at.value + cfg.rowMs)
            && (told.Rotated? ==> told.token == Token(t.sub, e.jti, e.now / 1000 + cfg.jwtSeconds))
            && (usable ==> at.Some?)
  {
    var before, e := run[..|run| - 1], run[|run| - 1];
    RunRecorded(cfg, before, e.token);
    RunInv(cfg, before, e.token);
    DrawnExpiry(cfg, before, e.token);
  }

  lemma {:induction false} DrawnExpiry(cfg: Config, run: seq<Event>, t: Token)
    ensures DrawnAt(cfg, run, t).Some? ==> t.exp == DrawnAt(cfg, run, t).value / 1000 + cfg.jwtSeconds
  {
    if run != [] && !Draws(cfg, run, t) { DrawnExpiry(cfg, run[..|run| - 1], t); }
  }

  /** When the token was accepted, if it was. */
  function AcceptedAt(cfg: Config, run: seq<Event>, t: Token): Option<int> {
    if run == [] then None
    else
      var e := run[|run| - 1];
      if e.Refresh? && e.token == t && Told(cfg, run).Rotated? then Some(e.now) else AcceptedAt(cfg, run[..|run| - 1], t)
  }

  /** The marker of a used token expires when as many whole seconds have passed as the token had left, and one at least. */
  lemma {:induction false} MarkerFromHistory(cfg: Config, run: seq<Event>, t: Token)
    requires ProperRun(run)
    ensures var at, s := AcceptedAt(cfg, run, t), After(cfg, run);
            at.Some? ==>
              && t in s.signed && t.jti in s.markers
              && s.markers[t.jti] == at.value + 1000 * (if t.exp - at.value / 1000 > 1 then t.exp - at.value / 1000 else 1)
  {
    if run != [] {
      var before, e := run[..|run| - 1], run[|run| - 1];
      MarkerFromHistory(cfg, before, t);
      RunIds(cfg, before);
      RunInv(cfg, before, t);
      if e.Refresh? { RunInv(cfg, before, e.token); }
    }
  }
}
