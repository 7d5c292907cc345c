/** Why each clause of the provisioning guard is needed: what it excludes can always end in a second VM. */
module SecondVm {
  import opened Provisioning

  /** More events from any state. */
  function From(s: State, more: seq<Event>): State
    decreases more
  {
    if more == [] then s else From(Step(s, more[0]), more[1..])
  }

  lemma {:induction false} FromAppend(s: State, a: seq<Event>, b: seq<Event>)
    decreases a
    ensures From(s, a + b) == From(From(s, a), b)
  {
    if a == [] {
      assert a + b == b;
    } else {
      assert (a + b)[1..] == a[1..] + b;
      FromAppend(Step(s, a[0]), a[1..], b);
    }
  }

  lemma {:induction false} FromOne(s: State, e: Event)
    ensures From(s, [e]) == Step(s, e)
  {
    assert [e][1..] == [];
  }

  lemma {:induction false} AfterAppend(run: seq<Event>, more: seq<Event>)
    ensures After(run + more) == From(After(run), more)
  {
    if more == [] {
      assert run + more == run;
    } else {
      var init, e := more[..|more| - 1], more[|more| - 1];
      assert (run + more)[..|run + more| - 1] == run + init;
      AfterAppend(run, init);
      assert more == init + [e];
      FromAppend(After(run), init, [e]);
      FromOne(From(After(run), init), e);
    }
  }

  /** An event of the ordinary course: every call succeeds and nothing expires. */
  predicate Ordinary(e: Event) {
    match e
    case Deliver(_) => true
    case TryLock(_, redisOk) => redisOk
    case ReadOneVmId(_, dbOk) => dbOk
    case Validate(_, ok) => ok
    case Instantiate(_, reply) => reply.Made?
    case Record(_, dbOk) => dbOk
    case Publish(_, ok) => ok
    case MarkError(_, dbOk) => dbOk
    case Release(_, redisOk) => redisOk
    case ExpireLock => false
  }

  predicate AllOrdinary(more: seq<Event>) { forall i :: 0 <= i < |more| ==> Ordinary(more[i]) }

  /** There is always room for another delivery. */
  lemma {:induction false} AnotherHandler(handlers: map<int, Phase>) returns (h: int)
    ensures h !in handlers
  {
    h := AboveAll(handlers.Keys);
  }

  lemma {:induction false} AboveAll(ids: set<int>) returns (h: int)
    ensures forall k :: k in ids ==> k < h
  {
    h := 0;
    if k: int :| k in ids {
      var above := AboveAll(ids - {k});
      h := if k < above then above else k + 1;
      assert forall j :: j in ids ==> j == k || j in ids - {k};
    }
  }

  /** A delivery that finds the lock free and no id comes as far as the call. */
  function Enter(h: int): seq<Event> {
    [Deliver(h)] + [TryLock(h, true)] + [ReadOneVmId(h, true)] + [Validate(h, true)]
  }

  lemma {:induction false} FromEnter(s: State, h: int)
    requires h !in s.handlers && !s.lock && s.row.oneVmId.None?
    ensures From(s, Enter(h)) == State(true, s.row, s.made, s.handlers[h := Ready])
  {
    var s1 := Step(s, Deliver(h));
    var s2 := Step(s1, TryLock(h, true));
    var s3 := Step(s2, ReadOneVmId(h, true));
    FromAppend(s, [Deliver(h)] + [TryLock(h, true)] + [ReadOneVmId(h, true)], [Validate(h, true)]);
    FromAppend(s, [Deliver(h)] + [TryLock(h, true)], [ReadOneVmId(h, true)]);
    FromAppend(s, [Deliver(h)], [TryLock(h, true)]);
    FromOne(s, Deliver(h));
    FromOne(s1, TryLock(h, true));
    FromOne(s2, ReadOneVmId(h, true));
    FromOne(s3, Validate(h, true));
    assert s3.handlers == s.handlers[h := Unassigned];
  }

  lemma {:induction false} CallMakes(s: State, h: int)
    requires Calling(PhaseOf(s, h))
    ensures From(s, [Instantiate(h, Made(0))]) == State(s.lock, s.row, s.made + [0], s.handlers[h := Instantiated(0)])
  {
    FromOne(s, Instantiate(h, Made(0)));
  }

  /** A VM exists that nobody will record, and the lock is free: the next delivery makes another. */
  lemma {:induction false} NextDeliveryMakes(s: State) returns (more: seq<Event>)
    requires !s.lock && s.row.oneVmId.None?
    ensures AllOrdinary(more) && From(s, more).made == s.made + [0]
  {
    var h := AnotherHandler(s.handlers);
    more := Enter(h) + [Instantiate(h, Made(0))];
    FromAppend(s, Enter(h), [Instantiate(h, Made(0))]);
    FromEnter(s, h);
    CallMakes(From(s, Enter(h)), h);
  }

  lemma {:induction false} FailingEnds(s: State, h: int) returns (more: seq<Event>)
    requires PhaseOf(s, h).Failing? || PhaseOf(s, h).Releasing?
    ensures AllOrdinary(more)
    ensures var s' := From(s, more);
            && !s'.lock && s'.row.oneVmId == s.row.oneVmId && s'.made == s.made
            && forall k :: k != h ==> PhaseOf(s', k) == PhaseOf(s, k)
  {
    more := [MarkError(h, true)] + [Release(h, true)];
    FromAppend(s, [MarkError(h, true)], [Release(h, true)]);
    FromOne(s, MarkError(h, true));
    FromOne(Step(s, MarkError(h, true)), Release(h, true));
  }

  /** A handler that fails with a VM already made. */
  lemma {:induction false} FailingThenNext(s: State, h: int) returns (more: seq<Event>)
    requires PhaseOf(s, h).Failing? && s.row.oneVmId.None? && |s.made| == 1
    ensures AllOrdinary(more) && |From(s, more).made| == 2
  {
    var ends := FailingEnds(s, h);
    var next := NextDeliveryMakes(From(s, ends));
    more := ends + next;
    FromAppend(s, ends, next);
  }

  lemma {:induction false} BothMake(s: State, h: int, k: int) returns (more: seq<Event>)
    requires h != k && Calling(PhaseOf(s, h)) && Calling(PhaseOf(s, k))
    ensures AllOrdinary(more) && |From(s, more).made| >= 2
  {
    more := [Instantiate(h, Made(0))] + [Instantiate(k, Made(0))];
    FromAppend(s, [Instantiate(h, Made(0))], [Instantiate(k, Made(0))]);
    CallMakes(s, h);
    CallMakes(From(s, [Instantiate(h, Made(0))]), k);
  }

  /** The lock's lasting is needed too: after every run, an expiry under a handler lets a second one in beside it. */
  lemma {:induction false} EarlyExpiryAdmitsSecond(run: seq<Event>, e: Event) returns (h: int, k: int)
    requires ExpiresEarly(After(run), e)
    ensures var s := After(run + [e] + ([Deliver(k)] + [TryLock(k, true)]));
            h != k && h in s.handlers && k in s.handlers && Critical(s.handlers[h]) && Critical(s.handlers[k])
  {
    var s := After(run);
    h :| h in s.handlers && Critical(s.handlers[h]);
    k := AnotherHandler(s.handlers);
    assert (run + [e])[..|run|] == run;
    var s1 := Step(s, e);
    AfterAppend(run + [e], [Deliver(k)] + [TryLock(k, true)]);
    FromAppend(s1, [Deliver(k)], [TryLock(k, true)]);
    FromOne(s1, Deliver(k));
    FromOne(Step(s1, Deliver(k)), TryLock(k, true));
  }

  // ---------------------------------------------------------------- each excluded event

  lemma {:induction false} AfterLostRecord(s: State, h: int) returns (more: seq<Event>)
    requires Inv(s) && PhaseOf(s, h).Instantiated?
    ensures AllOrdinary(more) && |From(Step(s, Record(h, false)), more).made| == 2
  {
    more := FailingThenNext(Step(s, Record(h, false)), h);
  }

  lemma {:induction false} AfterLostReply(s: State, h: int, id: int) returns (more: seq<Event>)
    requires Inv(s) && Calling(PhaseOf(s, h))
    ensures AllOrdinary(more) && |From(Step(s, Instantiate(h, RaisedAfterMaking(id))), more).made| == 2
  {
    var s' := Step(s, Instantiate(h, RaisedAfterMaking(id)));
    if PhaseOf(s, h).Ready? {
      more := [Instantiate(h, Made(0))];
      CallMakes(s', h);
    } else {
      more := FailingThenNext(s', h);
    }
  }

  lemma {:induction false} AfterLostRead(s: State, h: int) returns (more: seq<Event>)
    requires Inv(s) && PhaseOf(s, h).Locked? && s.row.oneVmId.Some?
    ensures AllOrdinary(more) && |From(Step(s, ReadOneVmId(h, false)), more).made| == 2
  {
    var s' := Step(s, ReadOneVmId(h, false));
    more := [Validate(h, true)] + [Instantiate(h, Made(0))];
    FromAppend(s', [Validate(h, true)], [Instantiate(h, Made(0))]);
    FromOne(s', Validate(h, true));
    CallMakes(Step(s', Validate(h, true)), h);
  }

  /** A handler that has seen no id, or has not looked yet, comes as far as the call. */
  lemma {:induction false} ReachesCall(s: State, h: int) returns (more: seq<Event>)
    requires s.row.oneVmId.None? && (PhaseOf(s, h).Locked? || BeforeMaking(PhaseOf(s, h)))
    ensures AllOrdinary(more)
    ensures var s' := From(s, more);
            Calling(PhaseOf(s', h)) && forall k :: k != h ==> PhaseOf(s', k) == PhaseOf(s, k)
  {
    more := [ReadOneVmId(h, true)] + [Validate(h, true)];
    FromAppend(s, [ReadOneVmId(h, true)], [Validate(h, true)]);
    FromOne(s, ReadOneVmId(h, true));
    FromOne(Step(s, ReadOneVmId(h, true)), Validate(h, true));
  }

  /** Without its lock a handler that works has company. */
  lemma {:induction false} Joined(s: State) returns (more: seq<Event>, k: int)
    requires !s.lock && s.row.oneVmId.None?
    ensures AllOrdinary(more) && k !in s.handlers
    ensures From(s, more) == State(true, s.row, s.made, s.handlers[k := Ready])
  {
    k := AnotherHandler(s.handlers);
    more := Enter(k);
    FromEnter(s, k);
  }

  lemma {:induction false} AfterExpiry(s: State, h: int) returns (more: seq<Event>)
    requires Inv(s) && s.row.oneVmId.None? && Critical(PhaseOf(s, h))
    ensures AllOrdinary(more) && |From(Step(s, ExpireLock), more).made| >= 2
  {
    var s0 := Step(s, ExpireLock);
    var enter, k := Joined(s0);
    var s1 := From(s0, enter);
    var p := PhaseOf(s, h);
    var rest;
    if p.Locked? || BeforeMaking(p) {
      rest := WithTwo(s1, h, k);
    } else if p.Instantiated? {
      rest := [Instantiate(k, Made(0))];
      CallMakes(s1, k);
    } else {
      rest := ReleasedForThird(s1, h, k);
    }
    more := enter + rest;
    FromAppend(s0, enter, rest);
  }

  lemma {:induction false} WithTwo(s: State, h: int, k: int) returns (more: seq<Event>)
    requires s.row.oneVmId.None? && h != k && Calling(PhaseOf(s, k))
    requires PhaseOf(s, h).Locked? || BeforeMaking(PhaseOf(s, h))
    ensures AllOrdinary(more) && |From(s, more).made| >= 2
  {
    var reach := ReachesCall(s, h);
    var make := BothMake(From(s, reach), h, k);
    more := reach + make;
    FromAppend(s, reach, make);
  }

  /** A handler on its way out deletes the lock of the one that joined it, and a third comes in. */
  lemma {:induction false} ReleasedForThird(s: State, h: int, k: int) returns (more: seq<Event>)
    requires s.row.oneVmId.None? && h != k && Calling(PhaseOf(s, k))
    requires PhaseOf(s, h).Failing? || PhaseOf(s, h).Releasing?
    ensures AllOrdinary(more) && |From(s, more).made| >= 2
  {
    var ends := FailingEnds(s, h);
    var s1 := From(s, ends);
    var enter, third := Joined(s1);
    var make := BothMake(From(s1, enter), k, third);
    more := ends + (enter + make);
    FromAppend(s, ends, enter + make);
    FromAppend(s1, enter, make);
  }

  /**
    The guard is exact: after every run under it, an event it excludes has a continuation of ordinary
    events that ends with two VMs, while an event it allows still leaves one at most.
  */
  lemma {:induction false} GuardIsExact(run: seq<Event>, e: Event) returns (more: seq<Event>)
    requires HarmlessRun(run)
    ensures AllOrdinary(more)
    ensures !Harmless(After(run), e) ==> |After(run + [e] + more).made| >= 2
    ensures Harmless(After(run), e) ==> |After(run + [e]).made| <= 1
  {
    more := [];
    RunInv(run);
    assert (run + [e])[..|run|] == run;
    if Harmless(After(run), e) {
      AtMostOneVm(run + [e]);
    } else {
      more := AfterHarmful(After(run), e);
      AfterAppend(run + [e], more);
    }
  }

  lemma {:induction false} AfterHarmful(s: State, e: Event) returns (more: seq<Event>)
    requires Inv(s) && !Harmless(s, e)
    ensures AllOrdinary(more) && |From(Step(s, e), more).made| >= 2
  {
    match e
    case ExpireLock =>
      var h :| h in s.handlers && Critical(s.handlers[h]);
      more := AfterExpiry(s, h);
    case ReadOneVmId(h, _) => more := AfterLostRead(s, h);
    case Record(h, _) => more := AfterLostRecord(s, h);
    case Instantiate(h, reply) => more := AfterLostReply(s, h, reply.id);
  }
}
