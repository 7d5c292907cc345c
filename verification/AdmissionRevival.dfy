/** What a deleted VM that comes back does to an admission in progress. */
module AdmissionRevival {
  import opened Admission
  import opened Outcomes
  import opened VmRows

  lemma {:induction false} PassesChecks(w: World, s: State, id: int)
    requires PhaseOf(s, id).Begun? && w.hash(s.requests[id].user) !in s.locks && AnswerFor(w, s, s.requests[id]).Created?
    ensures var s' := Step(w, Step(w, Step(w, Step(w, s, Fetch(id)), Acquire(id)), CountVms(id)), Aggregate(id));
            && PhaseOf(s', id).Checked? && PhaseOf(s', id).limits == AnswerFor(w, s, s.requests[id]).limits
            && s'.requests[id].user == s.requests[id].user && s'.requests[id].demand == s.requests[id].demand
            && s'.rows == s.rows
  {
    var s2 := Step(w, Step(w, s, Fetch(id)), Acquire(id));
    assert PhaseOf(s2, id).Holding? && s2.rows == s.rows;
  }

  /** More events from any state. */
  function From(w: World, s: State, more: seq<Event>): State {
    if more == [] then s else Step(w, From(w, s, more[..|more| - 1]), more[|more| - 1])
  }

  lemma {:induction false} AfterFrom(w: World, run: seq<Event>, more: seq<Event>)
    ensures After(w, run + more) == From(w, After(w, run), more)
  {
    if more == [] {
      assert run + more == run;
    } else {
      var init, e := more[..|more| - 1], more[|more| - 1];
      AfterFrom(w, run, init);
      AfterSnoc(w, run + init, e);
      assert run + more == (run + init) + [e];
    }
  }

  lemma {:induction false} FromSnoc(w: World, s: State, more: seq<Event>, e: Event)
    ensures From(w, s, more + [e]) == Step(w, From(w, s, more), e)
  {
    assert (more + [e])[..|more|] == more;
  }

  lemma {:induction false} FromOne(w: World, s: State, e: Event)
    ensures From(w, s, [e]) == Step(w, s, e)
  {
    assert [e] == [] + [e];
    FromSnoc(w, s, [], e);
  }

  lemma {:induction false} FromFour(w: World, s: State, a: Event, b: Event, c: Event, d: Event)
    ensures From(w, s, [a] + [b] + [c] + [d]) == Step(w, Step(w, Step(w, Step(w, s, a), b), c), d)
  {
    FromOne(w, s, a);
    FromSnoc(w, s, [a], b);
    FromSnoc(w, s, [a] + [b], c);
    FromSnoc(w, s, [a] + [b] + [c], d);
  }

  function Checks(id: int): seq<Event> { [Fetch(id)] + [Acquire(id)] + [CountVms(id)] + [Aggregate(id)] }

  lemma {:induction false} FromChecks(w: World, s: State, id: int)
    ensures From(w, s, Checks(id)) == Step(w, Step(w, Step(w, Step(w, s, Fetch(id)), Acquire(id)), CountVms(id)), Aggregate(id))
  {
    FromFour(w, s, Fetch(id), Acquire(id), CountVms(id), Aggregate(id));
  }

  /** A create whose checks pass, with a VM that comes back before its commit. */
  function RevivedMidway(id: int, row: nat): seq<Event> { Checks(id) + [SetStatus(row, RUNNING)] + [Commit(id)] }

  /**
    From every state in which a user has a deleted VM and room for a new one, a VM that comes back
    between count and commit is added to the totals with the new one: if there was no room for both,
    the accepted create leaves the user over the limits it had read.
  */
  lemma {:induction false} RevivalExceeds(w: World, s: State, id: int, row: nat)
    requires PhaseOf(s, id).Begun? && w.hash(s.requests[id].user) !in s.locks && AnswerFor(w, s, s.requests[id]).Created?
    requires row < |s.rows| && s.rows[row].user == s.requests[id].user && s.rows[row].status == DELETED
    ensures var r, s' := s.requests[id], From(w, s, RevivedMidway(id, row));
            && PhaseOf(s', id) == Ended(Some(AnswerFor(w, s, r)))
            && Used(s'.rows, r.user) == Plus(Plus(Used(s.rows, r.user), s.rows[row].size), r.demand)
  {
    FromSnoc(w, s, Checks(id) + [SetStatus(row, RUNNING)], Commit(id));
    FromSnoc(w, s, Checks(id), SetStatus(row, RUNNING));
    FromChecks(w, s, id);
    PassesChecks(w, s, id);
    RevivedThenCommitted(w, From(w, s, Checks(id)), id, row);
  }

  lemma {:induction false} RevivedThenCommitted(w: World, s: State, id: int, row: nat)
    requires PhaseOf(s, id).Checked? && row < |s.rows|
    requires s.rows[row].user == s.requests[id].user && s.rows[row].status == DELETED
    ensures var r, s' := s.requests[id], Step(w, Step(w, s, SetStatus(row, RUNNING)), Commit(id));
            && PhaseOf(s', id) == Ended(Some(Created(r.phase.limits)))
            && Used(s'.rows, r.user) == Plus(Plus(Used(s.rows, r.user), s.rows[row].size), r.demand)
  {
    var r := s.requests[id];
    UsedAfterStatus(s.rows, row, RUNNING, r.user);
    UsedSnoc(s.rows[row := s.rows[row].(status := RUNNING)], Row(r.user, PENDING, r.demand), r.user);
  }

  const One := Demand(1, 1, 1)

  const QuotaOfOne := Remote(true, Some(Amounts(1, 8, 8, 8)))

  /** A user with a quota of one VM creates one and deletes it, and asks for another. */
  function AskedAgain(): seq<Event> {
    [SetRemote("u", QuotaOfOne)] + [Begin(1, "u", One)] + Checks(1) + [Commit(1)] + [SetStatus(0, DELETED)] + [Begin(2, "u", One)]
  }

  lemma {:induction false} FirstCreated(w: World)
    requires !w.admin("u")
    ensures var s := From(w, Initial, [SetRemote("u", QuotaOfOne)] + [Begin(1, "u", One)] + Checks(1) + [Commit(1)]);
            && 2 !in s.requests && w.hash("u") !in s.locks && s.rows == [Row("u", PENDING, One)]
            && RemoteOf(s, "u") == QuotaOfOne
  {
    var begun := [SetRemote("u", QuotaOfOne)] + [Begin(1, "u", One)];
    assert [SetRemote("u", QuotaOfOne)] == [] + [SetRemote("u", QuotaOfOne)];
    FromSnoc(w, Initial, [], SetRemote("u", QuotaOfOne));
    FromSnoc(w, Initial, [SetRemote("u", QuotaOfOne)], Begin(1, "u", One));
    var s := From(w, Initial, begun);
    assert s.requests[1] == Request("u", One, Begun) && RemoteOf(s, "u") == QuotaOfOne && 2 !in s.requests;
    FromFrom(w, Initial, begun, Checks(1));
    FromSnoc(w, Initial, begun + Checks(1), Commit(1));
    FromChecks(w, s, 1);
    AloneIsCreateVm(w, s, 1);
    AloneTouchesOne(w, s, 1, 2);
  }

  lemma {:induction false} FromFrom(w: World, s: State, more: seq<Event>, rest: seq<Event>)
    ensures From(w, s, more + rest) == From(w, From(w, s, more), rest)
  {
    if rest == [] {
      assert more + rest == more;
    } else {
      var init, e := rest[..|rest| - 1], rest[|rest| - 1];
      FromFrom(w, s, more, init);
      FromSnoc(w, s, more + init, e);
      assert more + rest == (more + init) + [e];
    }
  }

  lemma {:induction false} StepTouchesOne(w: World, s: State, e: Event, other: int)
    requires !e.Begin? && !e.SetRemote?
    ensures Step(w, s, e).remotes == s.remotes && (other !in s.requests ==> other !in Step(w, s, e).requests)
  {}

  lemma {:induction false} AloneTouchesOne(w: World, s: State, id: int, other: int)
    requires other !in s.requests
    ensures Alone(w, s, id).remotes == s.remotes && other !in Alone(w, s, id).requests
  {
    var s1 := Step(w, s, Fetch(id));
    var s2 := Step(w, s1, Acquire(id));
    var s3 := Step(w, s2, CountVms(id));
    StepTouchesOne(w, s, Fetch(id), other);
    StepTouchesOne(w, s1, Acquire(id), other);
    StepTouchesOne(w, s2, CountVms(id), other);
    StepTouchesOne(w, s3, Aggregate(id), other);
    StepTouchesOne(w, Step(w, s3, Aggregate(id)), Commit(id), other);
  }

  /** So it happens: with a quota of one VM, a user ends with two. */
  lemma {:induction false} RevivalGivesTwo(w: World)
    requires !w.admin("u")
    ensures var s := After(w, AskedAgain() + RevivedMidway(2, 0));
            PhaseOf(s, 2) == Ended(Some(Created(Amounts(1, 8, 8, 8)))) && Used(s.rows, "u").vms == 2
  {
    var created := [SetRemote("u", QuotaOfOne)] + [Begin(1, "u", One)] + Checks(1) + [Commit(1)];
    FirstCreated(w);
    FromSnoc(w, Initial, created, SetStatus(0, DELETED));
    FromSnoc(w, Initial, created + [SetStatus(0, DELETED)], Begin(2, "u", One));
    var s := From(w, Initial, AskedAgain());
    assert s.rows == [Row("u", DELETED, One)] && s.requests[2] == Request("u", One, Begun);
    assert Used(s.rows, "u") == Nothing by { assert s.rows[..0] == []; }
    RevivalExceeds(w, s, 2, 0);
    assert [] + AskedAgain() == AskedAgain();
    AfterFrom(w, [], AskedAgain());
    AfterFrom(w, AskedAgain(), RevivedMidway(2, 0));
  }
}
