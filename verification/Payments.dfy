/** Payment status under duplicated, reordered Stripe deliveries. */
module Payments {
  import opened Outcomes
  import opened Text

  datatype Status = Pending | Expired | Paid | AdminGranted

  /** `plan` is what `extractPlanFromPayment` finds. */
  datatype Payment = Payment(userId: string, payMethod: string, plan: Option<string>, status: Status)

  /** A plan activated for a user. */
  datatype Activation = Activation(userId: string, plan: string)

  /** A delivery: a webhook event, or a customer's return with what Stripe says of the session. */
  datatype Delivery =
    | Completed(eventId: string, sessionId: string)
    | SessionExpired(eventId: string, sessionId: string)
    | OtherEvent(eventId: string)
    | Confirm(userId: string, sessionId: string, session: Option<Session>)

  datatype Session = Session(owner: Option<string>, paid: bool)

  datatype Answer = Accepted(updated: nat) | Duplicate | Rejected

  datatype State = State(payments: seq<Payment>, events: set<string>)

  /** The `method` that a checkout writes. */
  function MethodFor(sessionId: string, suffix: string): string { "stripe:" + sessionId + suffix }

  predicate Matches(p: Payment, sessionId: string) { "stripe:" + sessionId <= p.payMethod }

  function PaidRow(p: Payment, sessionId: string): Payment {
    if Matches(p, sessionId) && p.status != Paid && p.status != AdminGranted then p.(status := Paid) else p
  }

  function ExpiredRow(p: Payment, sessionId: string): Payment {
    if Matches(p, sessionId) && p.status == Pending then p.(status := Expired) else p
  }

  function MarkPaid(ps: seq<Payment>, sessionId: string): (r: seq<Payment>)
    ensures |r| == |ps| && forall i :: 0 <= i < |ps| ==> r[i] == PaidRow(ps[i], sessionId)
  {
    if ps == [] then [] else MarkPaid(ps[..|ps| - 1], sessionId) + [PaidRow(ps[|ps| - 1], sessionId)]
  }

  function MarkExpired(ps: seq<Payment>, sessionId: string): (r: seq<Payment>)
    ensures |r| == |ps| && forall i :: 0 <= i < |ps| ==> r[i] == ExpiredRow(ps[i], sessionId)
  {
    if ps == [] then [] else MarkExpired(ps[..|ps| - 1], sessionId) + [ExpiredRow(ps[|ps| - 1], sessionId)]
  }

  function CountMatched(ps: seq<Payment>, sessionId: string): nat {
    if ps == [] then 0
    else CountMatched(ps[..|ps| - 1], sessionId) + (if Matches(ps[|ps| - 1], sessionId) then 1 else 0)
  }

  /** The plans that the session's payments buy, in their order. */
  function Bought(ps: seq<Payment>, sessionId: string): seq<Activation> {
    if ps == [] then []
    else
      var p := ps[|ps| - 1];
      Bought(ps[..|ps| - 1], sessionId) +
      (if Matches(p, sessionId) && p.plan.Some? then [Activation(p.userId, p.plan.value)] else [])
  }

  /** Every payment of the session belongs to the user. */
  predicate OwnedBy(ps: seq<Payment>, sessionId: string, userId: string) {
    forall i :: 0 <= i < |ps| && Matches(ps[i], sessionId) ==> ps[i].userId == userId
  }

  /** The checks of `confirmCheckoutSession` pass. */
  predicate ConfirmOk(ps: seq<Payment>, d: Delivery)
    requires d.Confirm?
  {
    && Trim(d.sessionId) != "" && d.session.Some?
    && (d.session.value.owner.Some? ==> d.session.value.owner.value == d.userId)
    && d.session.value.paid && OwnedBy(ps, d.sessionId, d.userId)
  }

  function Deliver(s: State, d: Delivery): State {
    match d
    case Completed(id, sid) =>
      if id in s.events then s else State(MarkPaid(s.payments, sid), s.events + {id})
    case SessionExpired(id, sid) =>
      if id in s.events then s else State(MarkExpired(s.payments, sid), s.events + {id})
    case OtherEvent(id) => s.(events := s.events + {id})
    case Confirm(userId, sid, session) =>
      if ConfirmOk(s.payments, d) then s.(payments := MarkPaid(s.payments, sid)) else s
  }

  class PaymentService {
    var payments: seq<Payment>
    var events: set<string>
    var activations: seq<Activation>

    constructor (payments: seq<Payment>)
      ensures Contents() == State(payments, {}) && activations == []
    {
      this.payments, events, activations := payments, {}, [];
    }

    function Contents(): State
      reads this
    {
      State(payments, events)
    }

    method UpdatePaid(sessionId: string)
      modifies this`payments
      ensures payments == MarkPaid(old(payments), sessionId)
    {
      var n := |payments|;
      for i := 0 to n
        invariant |payments| == n
        invariant forall j :: 0 <= j < i ==> payments[j] == PaidRow(old(payments)[j], sessionId)
        invariant forall j :: i <= j < n ==> payments[j] == old(payments)[j]
      {
        var p := payments[i];
        if Matches(p, sessionId) && p.status != Paid && p.status != AdminGranted {
          payments := payments[i := p.(status := Paid)];
        }
      }
    }

    method UpdateExpired(sessionId: string)
      modifies this`payments
      ensures payments == MarkExpired(old(payments), sessionId)
    {
      var n := |payments|;
      for i := 0 to n
        invariant |payments| == n
        invariant forall j :: 0 <= j < i ==> payments[j] == ExpiredRow(old(payments)[j], sessionId)
        invariant forall j :: i <= j < n ==> payments[j] == old(payments)[j]
      {
        if Matches(payments[i], sessionId) && payments[i].status == Pending {
          payments := payments[i := payments[i].(status := Expired)];
        }
      }
    }

    method ActivatePlans(matched: seq<Payment>, sessionId: string)
      modifies this`activations
      ensures activations == old(activations) + Bought(matched, sessionId)
    {
      for i := 0 to |matched|
        invariant activations == old(activations) + Bought(matched[..i], sessionId)
      {
        assert matched[..i + 1][..i] == matched[..i];
        if Matches(matched[i], sessionId) && matched[i].plan.Some? {
          activations := activations + [Activation(matched[i].userId, matched[i].plan.value)];
        }
      }
      assert matched[..|matched|] == matched;
    }

    method MarkStripeSessionAsPaid(sessionId: string, expectedUserId: Option<string>) returns (r: Answer)
      modifies this`payments, this`activations
      ensures var foreign := expectedUserId.Some? && !OwnedBy(old(payments), sessionId, expectedUserId.value);
              && payments == (if foreign then old(payments) else MarkPaid(old(payments), sessionId))
              && activations == old(activations) + (if foreign then [] else Bought(old(payments), sessionId))
              && r == if foreign then Rejected else Accepted(CountMatched(old(payments), sessionId))
    {
      var matched := 0;
      for i := 0 to |payments|
        invariant matched == CountMatched(payments[..i], sessionId)
        invariant expectedUserId.Some? ==> OwnedBy(payments[..i], sessionId, expectedUserId.value)
        invariant payments == old(payments) && activations == old(activations)
      {
        assert payments[..i + 1][..i] == payments[..i];
        if Matches(payments[i], sessionId) {
          if expectedUserId.Some? && payments[i].userId != expectedUserId.value {
            return Rejected;
          }
          matched := matched + 1;
        }
      }
      assert payments[..|payments|] == payments;
      var found := payments;
      UpdatePaid(sessionId);
      ActivatePlans(found, sessionId);
      r := Accepted(matched);
    }

    method HandleWebhook(d: Delivery) returns (r: Answer)
      requires !d.Confirm?
      modifies this
      ensures Contents() == Deliver(old(Contents()), d)
      ensures r == Duplicate <==> d.eventId in old(events)
      ensures events == old(events) + {d.eventId}
      ensures activations == old(activations) +
                (if d.Completed? && d.eventId !in old(events) then Bought(old(payments), d.sessionId) else [])
    {
      if d.eventId in events {
        assert events == events + {d.eventId};
        return Duplicate;
      }
      events := events + {d.eventId};
      r := Accepted(0);
      if d.Completed? {
        r := MarkStripeSessionAsPaid(d.sessionId, None);
      } else if d.SessionExpired? {
        UpdateExpired(d.sessionId);
      }
    }

    method ConfirmCheckoutSession(userId: string, sessionId: string, session: Option<Session>) returns (r: Answer)
      modifies this`payments, this`activations
      ensures Contents() == Deliver(old(Contents()), Confirm(userId, sessionId, session))
      ensures r.Accepted? <==> ConfirmOk(old(payments), Confirm(userId, sessionId, session))
      ensures activations == old(activations) + (if r.Accepted? then Bought(old(payments), sessionId) else [])
    {
      if Trim(sessionId) == "" || session.None? {
        return Rejected;
      }
      if session.value.owner.Some? && session.value.owner.value != userId {
        return Rejected;
      }
      if !session.value.paid {
        return Rejected;
      }
      r := MarkStripeSessionAsPaid(sessionId, Some(userId));
    }
  }

  // ---------------------------------------------------------------- what the methods answer

  /** The text has something but white space in it. */
  predicate NotBlank(s: string) { exists i :: 0 <= i < |s| && !IsSpace(s[i]) }

  /** The row was written for a session whose id begins with this one. */
  predicate BeginsMethod(p: Payment, sessionId: string) {
    |p.payMethod| >= 7 + |sessionId| && p.payMethod[..7] == "stripe:" && p.payMethod[7..7 + |sessionId|] == sessionId
  }

  lemma {:induction false} MatchesMeans(p: Payment, sessionId: string)
    ensures Matches(p, sessionId) <==> BeginsMethod(p, sessionId)
  {
    var prefix := "stripe:" + sessionId;
    assert prefix[..7] == "stripe:" && prefix[7..] == sessionId;
    if BeginsMethod(p, sessionId) {
      assert p.payMethod[..7 + |sessionId|] == p.payMethod[..7] + p.payMethod[7..7 + |sessionId|];
    }
    if Matches(p, sessionId) {
      assert p.payMethod[..|prefix|] == prefix;
      assert p.payMethod[..|prefix|][..7] == p.payMethod[..7] && p.payMethod[..|prefix|][7..] == p.payMethod[7..|prefix|];
    }
  }

  /**
    A confirmation is accepted exactly for an id that is not blank, of a session that Stripe knows, that is
    paid and names this user or no one, and none of whose rows is another user's.
  */
  lemma {:induction false} ConfirmMeans(ps: seq<Payment>, userId: string, sessionId: string, session: Option<Session>)
    ensures ConfirmOk(ps, Confirm(userId, sessionId, session)) <==>
            && NotBlank(sessionId) && session.Some? && session.value.paid
            && (session.value.owner.None? || session.value.owner.value == userId)
            && (forall i :: 0 <= i < |ps| && BeginsMethod(ps[i], sessionId) ==> ps[i].userId == userId)
  {
    TrimEmpty(sessionId);
    forall i | 0 <= i < |ps| ensures Matches(ps[i], sessionId) <==> BeginsMethod(ps[i], sessionId) {
      MatchesMeans(ps[i], sessionId);
    }
  }

  lemma {:induction false} CountAppend(a: seq<Payment>, b: seq<Payment>, sessionId: string)
    ensures CountMatched(a + b, sessionId) == CountMatched(a, sessionId) + CountMatched(b, sessionId)
  {
    if b == [] {
      assert a + b == a;
    } else {
      assert (a + b)[..|a + b| - 1] == a + b[..|b| - 1];
      CountAppend(a, b[..|b| - 1], sessionId);
    }
  }

  lemma {:induction false} BoughtAppend(a: seq<Payment>, b: seq<Payment>, sessionId: string)
    ensures Bought(a + b, sessionId) == Bought(a, sessionId) + Bought(b, sessionId)
  {
    if b == [] {
      assert a + b == a;
    } else {
      assert (a + b)[..|a + b| - 1] == a + b[..|b| - 1];
      BoughtAppend(a, b[..|b| - 1], sessionId);
    }
  }

  /** Counting and buying go row by row. */
  lemma {:induction false} RowByRow(a: seq<Payment>, b: seq<Payment>, p: Payment, sessionId: string)
    ensures CountMatched(a + b, sessionId) == CountMatched(a, sessionId) + CountMatched(b, sessionId)
    ensures Bought(a + b, sessionId) == Bought(a, sessionId) + Bought(b, sessionId)
    ensures CountMatched([p], sessionId) == if BeginsMethod(p, sessionId) then 1 else 0
    ensures Bought([p], sessionId) ==
            if BeginsMethod(p, sessionId) && p.plan.Some? then [Activation(p.userId, p.plan.value)] else []
  {
    CountAppend(a, b, sessionId);
    BoughtAppend(a, b, sessionId);
    MatchesMeans(p, sessionId);
    assert [p][..0] == [];
  }

  /** The ids of the webhook events among the deliveries. */
  function EventIds(run: seq<Delivery>): set<string> {
    if run == [] then {}
    else EventIds(run[..|run| - 1]) + (if run[|run| - 1].Confirm? then {} else {run[|run| - 1].eventId})
  }

  /** The events recorded are those recorded before and those delivered. */
  lemma {:induction false} EventsFromHistory(s: State, run: seq<Delivery>)
    ensures After(s, run).events == s.events + EventIds(run)
  {
    if run != [] { EventsFromHistory(s, run[..|run| - 1]); }
  }

  // ---------------------------------------------------------------- session ids

  predicate PrefixFree(ids: set<string>) {
    forall a, b :: a in ids && b in ids && a <= b ==> a == b
  }

  lemma {:induction false} PrefixesCompare(a: string, b: string, s: string)
    requires a <= s && b <= s && |a| <= |b|
    ensures a <= b
  {}

  /** Among prefix-free ids a session's payments match that session and no other. */
  lemma {:induction false} MatchesOwnSession(ids: set<string>, mine: string, other: string, p: Payment, suffix: string)
    requires PrefixFree(ids) && mine in ids && other in ids && p.payMethod == MethodFor(mine, suffix)
    ensures Matches(p, other) <==> other == mine
  {
    var s := mine + suffix;
    assert p.payMethod == "stripe:" + s;
    assert p.payMethod[7..] == s;
    if other == mine {
      assert "stripe:" + mine <= p.payMethod;
    }
    if Matches(p, other) {
      assert other == ("stripe:" + other)[7..];
      assert other <= s;
      if |other| <= |mine| { PrefixesCompare(other, mine, s); } else { PrefixesCompare(mine, other, s); }
    }
  }

  // ---------------------------------------------------------------- runs

  function After(s: State, run: seq<Delivery>): State {
    if run == [] then s else Deliver(After(s, run[..|run| - 1]), run[|run| - 1])
  }

  function Rank(st: Status): nat {
    match st case Pending => 0 case Expired => 1 case Paid => 2 case AdminGranted => 3
  }

  /** The higher of two statuses under pending < expired < paid < admin_granted. */
  function Max(a: Status, b: Status): Status { if Rank(a) <= Rank(b) then b else a }

  /** What a delivery says of one payment; `Pending` if it says nothing. */
  function Says(ps: seq<Payment>, d: Delivery, i: nat): Status
    requires i < |ps|
  {
    match d
    case Completed(_, sid) => if Matches(ps[i], sid) then Paid else Pending
    case SessionExpired(_, sid) => if Matches(ps[i], sid) then Expired else Pending
    case OtherEvent(_) => Pending
    case Confirm(_, sid, _) => if ConfirmOk(ps, d) && Matches(ps[i], sid) then Paid else Pending
  }

  /** The delivery repeats an event recorded before the run. */
  predicate Stale(s: State, d: Delivery) { !d.Confirm? && d.eventId in s.events }

  function Received(s: State, d: Delivery, i: nat): Status
    requires i < |s.payments|
  {
    if Stale(s, d) then Pending else Says(s.payments, d, i)
  }

  /** The highest status received in a run that starts from `s`. */
  function Highest(s: State, run: seq<Delivery>, i: nat): Status
    requires i < |s.payments|
  {
    if run == [] then Pending else Max(Highest(s, run[..|run| - 1], i), Received(s, run[|run| - 1], i))
  }

  /** Two deliveries of one event are the same event. */
  predicate SameEventSameContent(run: seq<Delivery>) {
    forall i, j :: 0 <= i < |run| && 0 <= j < |run| && !run[i].Confirm? && !run[j].Confirm? && run[i].eventId == run[j].eventId ==>
      run[i] == run[j]
  }

  /** Deliveries change nothing but statuses. */
  predicate SameButStatus(a: seq<Payment>, b: seq<Payment>) {
    |a| == |b| && forall i :: 0 <= i < |a| ==> a[i].userId == b[i].userId && a[i].payMethod == b[i].payMethod && a[i].plan == b[i].plan
  }

  lemma {:induction false} DeliverSame(s: State, d: Delivery)
    ensures SameButStatus(s.payments, Deliver(s, d).payments)
  {}

  lemma {:induction false} SaysSame(a: seq<Payment>, b: seq<Payment>, d: Delivery, i: nat)
    requires SameButStatus(a, b) && i < |a|
    ensures Says(a, d, i) == Says(b, d, i)
  {
    assert forall j, sid :: 0 <= j < |a| ==> Matches(a[j], sid) == Matches(b[j], sid);
  }

  /** A delivery that is not a repeat joins what it says to the status. */
  lemma {:induction false} DeliverJoins(s: State, d: Delivery, i: nat)
    requires i < |s.payments| && (d.Confirm? || d.eventId !in s.events)
    ensures |Deliver(s, d).payments| == |s.payments|
    ensures Deliver(s, d).payments[i].status == Max(s.payments[i].status, Says(s.payments, d, i))
  {}

  lemma {:induction false} RunSame(s: State, run: seq<Delivery>)
    ensures SameButStatus(s.payments, After(s, run).payments)
  {
    if run != [] {
      RunSame(s, run[..|run| - 1]);
      DeliverSame(After(s, run[..|run| - 1]), run[|run| - 1]);
    }
  }

  /** An event seen was delivered in the run, or recorded before it. */
  lemma {:induction false} SeenEarlier(s: State, run: seq<Delivery>, id: string) returns (j: nat)
    requires id !in s.events && id in After(s, run).events
    ensures j < |run| && !run[j].Confirm? && run[j].eventId == id
  {
    var init, last := run[..|run| - 1], run[|run| - 1];
    if id in After(s, init).events {
      j := SeenEarlier(s, init, id);
    } else {
      j := |run| - 1;
    }
  }

  lemma {:induction false} EventsStay(s: State, run: seq<Delivery>)
    ensures s.events <= After(s, run).events
  {
    if run != [] { EventsStay(s, run[..|run| - 1]); }
  }

  lemma {:induction false} HighestCovers(s: State, run: seq<Delivery>, i: nat, j: nat)
    requires i < |s.payments| && j < |run|
    ensures Rank(Received(s, run[j], i)) <= Rank(Highest(s, run, i))
  {
    if j < |run| - 1 { HighestCovers(s, run[..|run| - 1], i, j); }
  }

  /**
    Webhook confluence: from any state, after any deliveries, repeated and in any order, a payment's
    status is the highest of the one it had and those received, under pending < expired < paid.
  */
  lemma {:induction false} Confluence(s: State, run: seq<Delivery>, i: nat)
    requires SameEventSameContent(run) && i < |s.payments|
    ensures |After(s, run).payments| == |s.payments|
    ensures After(s, run).payments[i].status == Max(s.payments[i].status, Highest(s, run, i))
  {
    if run != [] {
      var init, d := run[..|run| - 1], run[|run| - 1];
      var t := After(s, init);
      assert forall k :: 0 <= k < |init| ==> init[k] == run[k];
      Confluence(s, init, i);
      RunSame(s, init);
      EventsStay(s, init);
      if d.Confirm? || d.eventId !in t.events {
        SaysSame(s.payments, t.payments, d, i);
        DeliverJoins(t, d, i);
      } else {
        RepeatChangesNothing(t, d);
        if !Stale(s, d) {
          var j := SeenEarlier(s, init, d.eventId);
          assert run[j] == d;
          HighestCovers(s, init, i, j);
        }
      }
    }
  }

  lemma {:induction false} RepeatChangesNothing(s: State, d: Delivery)
    requires Stale(s, d)
    ensures Deliver(s, d) == s
  {
    assert s.events + {d.eventId} == s.events;
  }

  lemma {:induction false} HighestSubset(s: State, a: seq<Delivery>, b: seq<Delivery>, i: nat)
    requires i < |s.payments| && forall d :: d in a ==> d in b
    ensures Rank(Highest(s, a, i)) <= Rank(Highest(s, b, i))
  {
    if a != [] {
      HighestSubset(s, a[..|a| - 1], b, i);
      assert a[|a| - 1] in b;
      var j :| 0 <= j < |b| && b[j] == a[|a| - 1];
      HighestCovers(s, b, i, j);
    }
  }

  /** Order and repetition do not matter: from any state, the same deliveries leave the same payments. */
  lemma {:induction false} OrderIrrelevant(s: State, a: seq<Delivery>, b: seq<Delivery>)
    requires SameEventSameContent(a) && SameEventSameContent(b)
    requires forall d :: d in a <==> d in b
    ensures After(s, a).payments == After(s, b).payments
  {
    RunSame(s, a);
    RunSame(s, b);
    forall i | 0 <= i < |s.payments| ensures After(s, a).payments[i] == After(s, b).payments[i] {
      Confluence(s, a, i);
      Confluence(s, b, i);
      HighestSubset(s, a, b, i);
      HighestSubset(s, b, a, i);
    }
  }

  /** Statuses never fall in any run: a paid payment stays paid. */
  lemma {:induction false} NeverReverts(s: State, run: seq<Delivery>, i: nat)
    requires i < |s.payments|
    ensures |After(s, run).payments| == |s.payments|
    ensures Rank(s.payments[i].status) <= Rank(After(s, run).payments[i].status)
  {
    if run != [] {
      var t, d := After(s, run[..|run| - 1]), run[|run| - 1];
      NeverReverts(s, run[..|run| - 1], i);
      if d.Confirm? || d.eventId !in t.events {
        DeliverJoins(t, d, i);
      } else {
        RepeatChangesNothing(t, d);
      }
    }
  }

  /** The delivery is for a session of the set other than `mine`, or for none. */
  predicate Elsewhere(d: Delivery, ids: set<string>, mine: string) {
    d.OtherEvent? || (d.sessionId in ids && d.sessionId != mine)
  }

  /** With prefix-free ids, deliveries for other sessions leave a payment as it is. */
  lemma {:induction false} OtherSessionsUntouched(s: State, run: seq<Delivery>, i: nat, ids: set<string>, mine: string, suffix: string)
    requires PrefixFree(ids) && mine in ids && i < |s.payments| && s.payments[i].payMethod == MethodFor(mine, suffix)
    requires forall k :: 0 <= k < |run| ==> Elsewhere(run[k], ids, mine)
    ensures |After(s, run).payments| == |s.payments| && After(s, run).payments[i] == s.payments[i]
  {
    if run != [] {
      var t, d := After(s, run[..|run| - 1]), run[|run| - 1];
      OtherSessionsUntouched(s, run[..|run| - 1], i, ids, mine, suffix);
      if !d.OtherEvent? {
        MatchesOwnSession(ids, mine, d.sessionId, t.payments[i], suffix);
      }
    }
  }

  /** Without them it may: an id that begins another's id pays for both. */
  lemma {:induction false} PrefixPaysForOther(s: State, id: string, sid: string, more: string, suffix: string, i: nat)
    requires i < |s.payments| && id !in s.events && more != ""
    requires s.payments[i].payMethod == MethodFor(sid + more, suffix) && s.payments[i].status == Pending
    ensures sid + more != sid && Deliver(s, Completed(id, sid)).payments[i].status == Paid
  {
    assert s.payments[i].payMethod == "stripe:" + sid + (more + suffix);
  }
}
