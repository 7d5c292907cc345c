/** The terminal's fixed-window budgets: bytes and events a client may send. */
module TerminalBudget {
  import opened Outcomes

  const WINDOW_MS := 1000
  const MAX_EVENT_BYTES := 4096
  const MAX_BYTES := 32768
  const MAX_EVENTS := 100

  datatype Window = Window(start: int, used: nat)

  datatype Charge = Charge(window: Window, allowed: bool)

  /** The window a charge at `now` falls in, if it is still open. */
  predicate Open(w: Option<Window>, now: int) { w.Some? && now - w.value.start < WINDOW_MS }

  /** The byte budget: a charge that does not fit is not counted. */
  function ChargeBytes(w: Option<Window>, now: int, bytes: nat): Charge {
    if !Open(w, now) then Charge(Window(now, bytes), bytes <= MAX_BYTES)
    else if w.value.used + bytes > MAX_BYTES then Charge(w.value, false)
    else Charge(w.value.(used := w.value.used + bytes), true)
  }

  /** The event budget: every event is counted, rejected or not. */
  function ChargeEvent(w: Option<Window>, now: int): Charge {
    if !Open(w, now) then Charge(Window(now, 1), true)
    else Charge(w.value.(used := w.value.used + 1), w.value.used + 1 <= MAX_EVENTS)
  }

  // ---------------------------------------------------------------- one session

  datatype Budgets = Budgets(bytes: Option<Window>, events: Option<Window>)

  datatype Input = Input(now: int, bytes: nat)

  datatype Verdict = Empty | TooLarge | ByteRateExceeded | EventRateExceeded | Passed

  /** The checks of `handleInput` before the commands are inspected. */
  function Admit(b: Budgets, i: Input): (r: (Budgets, Verdict)) {
    if i.bytes == 0 then (b, Empty)
    else if i.bytes > MAX_EVENT_BYTES then (b, TooLarge)
    else
      var bytes := ChargeBytes(b.bytes, i.now, i.bytes);
      var b' := b.(bytes := Some(bytes.window));
      if !bytes.allowed then (b', ByteRateExceeded)
      else
        var event := ChargeEvent(b.events, i.now);
        (b'.(events := Some(event.window)), if event.allowed then Passed else EventRateExceeded)
  }

  class InputLimiter {
    var inputWindowStats: map<string, Window>
    var inputEventWindowStats: map<string, Window>

    constructor ()
      ensures inputWindowStats == map[] && inputEventWindowStats == map[]
    {
      inputWindowStats, inputEventWindowStats := map[], map[];
    }

    function BudgetsOf(clientId: string): Budgets
      reads this
    {
      Budgets(if clientId in inputWindowStats then Some(inputWindowStats[clientId]) else None,
              if clientId in inputEventWindowStats then Some(inputEventWindowStats[clientId]) else None)
    }

    method AllowInputRate(clientId: string, incomingBytes: nat, now: int) returns (allowed: bool)
      modifies this`inputWindowStats
      ensures var c := ChargeBytes(old(BudgetsOf(clientId)).bytes, now, incomingBytes);
              allowed == c.allowed && inputWindowStats == old(inputWindowStats)[clientId := c.window]
    {
      if clientId !in inputWindowStats || now - inputWindowStats[clientId].start >= WINDOW_MS {
        inputWindowStats := inputWindowStats[clientId := Window(now, incomingBytes)];
        return incomingBytes <= MAX_BYTES;
      }
      var current := inputWindowStats[clientId];
      var nextBytes := current.used + incomingBytes;
      if nextBytes > MAX_BYTES {
        assert inputWindowStats == inputWindowStats[clientId := current];
        return false;
      }
      inputWindowStats := inputWindowStats[clientId := current.(used := nextBytes)];
      allowed := true;
    }

    method AllowInputEventRate(clientId: string, now: int) returns (allowed: bool)
      modifies this`inputEventWindowStats
      ensures var c := ChargeEvent(old(BudgetsOf(clientId)).events, now);
              allowed == c.allowed && inputEventWindowStats == old(inputEventWindowStats)[clientId := c.window]
    {
      if clientId !in inputEventWindowStats || now - inputEventWindowStats[clientId].start >= WINDOW_MS {
        inputEventWindowStats := inputEventWindowStats[clientId := Window(now, 1)];
        return true;
      }
      var current := inputEventWindowStats[clientId];
      current := current.(used := current.used + 1);
      inputEventWindowStats := inputEventWindowStats[clientId := current];
      allowed := current.used <= MAX_EVENTS;
    }

    method HandleInput(clientId: string, byteLength: nat, now: int) returns (verdict: Verdict)
      modifies this
      ensures (BudgetsOf(clientId), verdict) == Admit(old(BudgetsOf(clientId)), Input(now, byteLength))
      ensures forall other :: other != clientId ==> BudgetsOf(other) == old(BudgetsOf(other))
    {
      if byteLength == 0 {
        return Empty;
      }
      if byteLength > MAX_EVENT_BYTES {
        return TooLarge;
      }
      var inRate := AllowInputRate(clientId, byteLength, now);
      if !inRate {
        return ByteRateExceeded;
      }
      var inEventRate := AllowInputEventRate(clientId, now);
      if !inEventRate {
        return EventRateExceeded;
      }
      verdict := Passed;
    }

    method CleanupSession(clientId: string)
      modifies this
      ensures BudgetsOf(clientId) == Budgets(None, None)
      ensures forall other :: other != clientId ==> BudgetsOf(other) == old(BudgetsOf(other))
    {
      inputWindowStats := inputWindowStats - {clientId};
      inputEventWindowStats := inputEventWindowStats - {clientId};
    }
  }

  // ---------------------------------------------------------------- runs of one session

  /** An amount let through at a time. */
  datatype Entry = Entry(now: int, amount: nat)

  /** The total let through in the half-open second that starts at `from`. */
  function Total(log: seq<Entry>, from: int): nat {
    if log == [] then 0
    else
      var e := log[|log| - 1];
      Total(log[..|log| - 1], from) + (if from <= e.now < from + 1000 then e.amount else 0)
  }

  /** A session so far: its budgets, and what each budget and both together let through. */
  datatype Trace = Trace(budgets: Budgets, bytes: seq<Entry>, events: seq<Entry>, passed: seq<Entry>)

  const Fresh := Trace(Budgets(None, None), [], [], [])

  function Step(tr: Trace, i: Input): Trace {
    var (budgets, verdict) := Admit(tr.budgets, i);
    Trace(budgets,
          if verdict.EventRateExceeded? || verdict.Passed? then tr.bytes + [Entry(i.now, i.bytes)] else tr.bytes,
          if verdict == Passed then tr.events + [Entry(i.now, 1)] else tr.events,
          if verdict == Passed then tr.passed + [Entry(i.now, i.bytes)] else tr.passed)
  }

  function Run(inputs: seq<Input>): Trace {
    if inputs == [] then Fresh else Step(Run(inputs[..|inputs| - 1]), inputs[|inputs| - 1])
  }

  predicate Monotone(inputs: seq<Input>) {
    forall i, j :: 0 <= i < j < |inputs| ==> inputs[i].now <= inputs[j].now
  }

  function Min(x: nat, y: nat): nat { if x <= y then x else y }

  /**
    What a budget has let through, seen from its open window: at most what that window counts, less its
    first charge, after the window's start; one more full window, less its first charge, before it.
  */
  ghost predicate Bounded(w: Option<Window>, log: seq<Entry>, limit: nat, clock: int) {
    && (forall i :: 0 <= i < |log| ==> log[i].now <= clock)
    && (w.None? ==> log == [])
    && (w.Some? ==>
          var Window(start, used) := w.value;
          var c := Min(used, limit);
          && 1 <= c && start <= clock
          && (forall t {:trigger Total(log, t)} :: start < t ==> Total(log, t) <= c - 1)
          && (forall t {:trigger Total(log, t)} :: start - WINDOW_MS < t <= start ==> Total(log, t) <= limit - 1 + c)
          && (forall t {:trigger Total(log, t)} :: Total(log, t) <= 2 * limit - 1))
  }

  lemma {:induction false} TotalSnoc(log: seq<Entry>, e: Entry, from: int)
    ensures Total(log + [e], from) == Total(log, from) + (if from <= e.now < from + WINDOW_MS then e.amount else 0)
  {
    assert (log + [e])[..|log|] == log;
  }

  lemma {:induction false} TotalAfterAll(log: seq<Entry>, from: int)
    requires forall i :: 0 <= i < |log| ==> log[i].now < from
    ensures Total(log, from) == 0
  {
    if log != [] { TotalAfterAll(log[..|log| - 1], from); }
  }

  /** An admitted charge that opens a window keeps the bound. */
  lemma {:induction false} OpenWindow(w: Option<Window>, log: seq<Entry>, limit: nat, clock: int, e: Entry)
    requires Bounded(w, log, limit, clock) && clock <= e.now && !Open(w, e.now) && 1 <= e.amount <= limit
    ensures Bounded(Some(Window(e.now, e.amount)), log + [e], limit, e.now)
  {
    forall t
      ensures e.now < t ==> Total(log + [e], t) <= e.amount - 1
      ensures e.now - WINDOW_MS < t <= e.now ==> Total(log + [e], t) <= limit - 1 + e.amount
      ensures Total(log + [e], t) <= 2 * limit - 1
    {
      TotalSnoc(log, e, t);
      if e.now < t { TotalAfterAll(log, t); }
    }
  }

  /** An admitted charge in the open window keeps the bound. */
  lemma {:induction false} StayInWindow(w: Window, log: seq<Entry>, limit: nat, clock: int, e: Entry)
    requires Bounded(Some(w), log, limit, clock) && clock <= e.now && Open(Some(w), e.now)
    requires w.used + e.amount <= limit
    ensures Bounded(Some(w.(used := w.used + e.amount)), log + [e], limit, e.now)
  {
    forall t
      ensures w.start < t ==> Total(log + [e], t) <= w.used + e.amount - 1
      ensures w.start - WINDOW_MS < t <= w.start ==> Total(log + [e], t) <= limit - 1 + w.used + e.amount
      ensures Total(log + [e], t) <= 2 * limit - 1
    {
      TotalSnoc(log, e, t);
    }
  }

  ghost predicate Inv(tr: Trace, clock: int) {
    && Bounded(tr.budgets.bytes, tr.bytes, MAX_BYTES, clock)
    && Bounded(tr.budgets.events, tr.events, MAX_EVENTS, clock)
    && (tr.budgets.bytes.Some? ==> tr.budgets.bytes.value.used <= MAX_BYTES)
    && (forall t {:trigger Total(tr.passed, t)} :: Total(tr.passed, t) <= Total(tr.bytes, t))
  }

  /** The byte budget after a charge of a non-empty input of at most one event's size. */
  lemma {:induction false} BytesBounded(w: Option<Window>, log: seq<Entry>, clock: int, i: Input)
    requires Bounded(w, log, MAX_BYTES, clock) && clock <= i.now && 1 <= i.bytes <= MAX_EVENT_BYTES
    requires w.Some? ==> w.value.used <= MAX_BYTES
    ensures var c := ChargeBytes(w, i.now, i.bytes);
            && c.window.used <= MAX_BYTES
            && Bounded(Some(c.window), if c.allowed then log + [Entry(i.now, i.bytes)] else log, MAX_BYTES, i.now)
  {
    var e := Entry(i.now, i.bytes);
    if !Open(w, i.now) {
      OpenWindow(w, log, MAX_BYTES, clock, e);
    } else if w.value.used + i.bytes <= MAX_BYTES {
      StayInWindow(w.value, log, MAX_BYTES, clock, e);
    }
  }

  lemma {:induction false} EventsBounded(w: Option<Window>, log: seq<Entry>, clock: int, now: int)
    requires Bounded(w, log, MAX_EVENTS, clock) && clock <= now
    ensures var c := ChargeEvent(w, now);
            Bounded(Some(c.window), if c.allowed then log + [Entry(now, 1)] else log, MAX_EVENTS, now)
  {
    var e := Entry(now, 1);
    if !Open(w, now) {
      OpenWindow(w, log, MAX_EVENTS, clock, e);
    } else if w.value.used + 1 <= MAX_EVENTS {
      StayInWindow(w.value, log, MAX_EVENTS, clock, e);
    }
  }

  lemma {:induction false} StepKeepsInv(tr: Trace, clock: int, i: Input)
    requires Inv(tr, clock) && clock <= i.now
    ensures Inv(Step(tr, i), i.now)
  {
    var b := tr.budgets;
    BoundedLater(b.bytes, tr.bytes, MAX_BYTES, clock, i.now);
    BoundedLater(b.events, tr.events, MAX_EVENTS, clock, i.now);
    if i.bytes == 0 || i.bytes > MAX_EVENT_BYTES {
      assert Step(tr, i) == tr;
    } else {
      BytesBounded(b.bytes, tr.bytes, clock, i);
      if ChargeBytes(b.bytes, i.now, i.bytes).allowed {
        EventsBounded(b.events, tr.events, clock, i.now);
        PassedWithinBytes(tr, Entry(i.now, i.bytes));
      } else {
        assert Step(tr, i).bytes == tr.bytes && Step(tr, i).events == tr.events && Step(tr, i).passed == tr.passed;
      }
    }
  }

  lemma {:induction false} BoundedLater(w: Option<Window>, log: seq<Entry>, limit: nat, clock: int, clock': int)
    requires Bounded(w, log, limit, clock) && clock <= clock'
    ensures Bounded(w, log, limit, clock')
  {}

  lemma {:induction false} PassedWithinBytes(tr: Trace, e: Entry)
    requires forall t {:trigger Total(tr.passed, t)} :: Total(tr.passed, t) <= Total(tr.bytes, t)
    ensures forall t {:trigger Total(tr.passed, t)} :: Total(tr.passed, t) <= Total(tr.bytes + [e], t)
    ensures forall t {:trigger Total(tr.passed + [e], t)} :: Total(tr.passed + [e], t) <= Total(tr.bytes + [e], t)
  {
    forall t
      ensures Total(tr.passed, t) <= Total(tr.bytes + [e], t)
      ensures Total(tr.passed + [e], t) <= Total(tr.bytes + [e], t)
    {
      TotalSnoc(tr.bytes, e, t);
      TotalSnoc(tr.passed, e, t);
    }
  }

  lemma {:induction false} RunKeepsInv(inputs: seq<Input>)
    requires Monotone(inputs) && inputs != []
    ensures Inv(Run(inputs), inputs[|inputs| - 1].now)
  {
    var init, last := inputs[..|inputs| - 1], inputs[|inputs| - 1];
    if init == [] {
      assert Inv(Fresh, last.now);
    } else {
      RunKeepsInv(init);
    }
    StepKeepsInv(Run(init), if init == [] then last.now else init[|init| - 1].now, last);
  }

  /**
    Over any run of one session: a window never holds more than its limit, and no half-open second
    ever lets through twice the limit, of bytes or of events.
  */
  lemma {:induction false} SecondBound(inputs: seq<Input>, from: int)
    requires Monotone(inputs)
    ensures var tr := Run(inputs);
            && (tr.budgets.bytes.Some? ==> tr.budgets.bytes.value.used <= 32768)
            && Total(tr.passed, from) <= Total(tr.bytes, from) <= 65535
            && Total(tr.events, from) <= 199
  {
    if inputs != [] {
      RunKeepsInv(inputs);
      var tr := Run(inputs);
      assert Total(tr.bytes, from) >= 0 && Total(tr.events, from) >= 0;
    }
  }

  // ---------------------------------------------------------------- verdicts from the history

  /** What the last input of the session was told. */
  function Told(inputs: seq<Input>): Verdict
    requires inputs != []
  {
    Admit(Run(inputs[..|inputs| - 1]).budgets, inputs[|inputs| - 1]).1
  }

  /** The input is of a size that is charged at all. */
  predicate Sized(i: Input) { 1 <= i.bytes <= 4096 }

  /** A second counted from `start` is over, or none has begun. */
  predicate Over(start: Option<int>, now: int) { start.None? || now - start.value >= 1000 }

  /** When the running second of the byte budget began: at the first input of the right size after the one before was over. */
  function ByteStart(inputs: seq<Input>): Option<int> {
    if inputs == [] then None
    else
      var start, i := ByteStart(inputs[..|inputs| - 1]), inputs[|inputs| - 1];
      if Sized(i) && Over(start, i.now) then Some(i.now) else start
  }

  /** The bytes let through by the byte budget in that second. */
  function BytesSince(inputs: seq<Input>): nat {
    if inputs == [] then 0
    else
      var before, i := inputs[..|inputs| - 1], inputs[|inputs| - 1];
      if Sized(i) && Over(ByteStart(before), i.now) then i.bytes
      else BytesSince(before) + (if Told(inputs).EventRateExceeded? || Told(inputs).Passed? then i.bytes else 0)
  }

  /** When the running second of the event budget began: at the first input that came as far as it. */
  function EventStart(inputs: seq<Input>): Option<int> {
    if inputs == [] then None
    else
      var start, i := EventStart(inputs[..|inputs| - 1]), inputs[|inputs| - 1];
      if (Told(inputs).EventRateExceeded? || Told(inputs).Passed?) && Over(start, i.now) then Some(i.now) else start
  }

  /** The inputs that came as far as the event budget in that second. */
  function EventsSince(inputs: seq<Input>): nat {
    if inputs == [] then 0
    else
      var before, i := inputs[..|inputs| - 1], inputs[|inputs| - 1];
      if !(Told(inputs).EventRateExceeded? || Told(inputs).Passed?) then EventsSince(before)
      else if Over(EventStart(before), i.now) then 1
      else EventsSince(before) + 1
  }

  function AsWindow(start: Option<int>, used: nat): Option<Window> {
    if start.Some? then Some(Window(start.value, used)) else None
  }

  lemma {:induction false} BudgetsFromHistory(inputs: seq<Input>)
    ensures Run(inputs).budgets ==
            Budgets(AsWindow(ByteStart(inputs), BytesSince(inputs)), AsWindow(EventStart(inputs), EventsSince(inputs)))
  {
    if inputs != [] { BudgetsFromHistory(inputs[..|inputs| - 1]); }
  }

  /** Every verdict from the inputs and verdicts before it: what is let through as well as what is not. */
  lemma {:induction false} VerdictFromHistory(inputs: seq<Input>)
    requires inputs != []
    ensures var before, i, told := inputs[..|inputs| - 1], inputs[|inputs| - 1], Told(inputs);
            var bytesFit := Over(ByteStart(before), i.now) || BytesSince(before) + i.bytes <= 32768;
            var eventFits := Over(EventStart(before), i.now) || EventsSince(before) + 1 <= 100;
            && (told == Empty <==> i.bytes == 0)
            && (told == TooLarge <==> i.bytes > 4096)
            && (told == ByteRateExceeded <==> Sized(i) && !bytesFit)
            && (told == EventRateExceeded <==> Sized(i) && bytesFit && !eventFits)
            && (told == Passed <==> Sized(i) && bytesFit && eventFits)
  {
    BudgetsFromHistory(inputs[..|inputs| - 1]);
  }

  // ---------------------------------------------------------------- the bound is exact

  /** `n` inputs of 4096 bytes each, all at time `now`. */
  function Burst(n: nat, now: int): seq<Input> {
    seq(n, _ => Input(now, 4096))
  }

  lemma {:induction false} RunSnoc(prefix: seq<Input>, i: Input)
    ensures Run(prefix + [i]) == Step(Run(prefix), i)
  {
    assert (prefix + [i])[..|prefix|] == prefix;
  }

  /** An input that fits both open windows is passed on. */
  lemma {:induction false} StepPasses(tr: Trace, i: Input, from: int)
    requires 1 <= i.bytes <= MAX_EVENT_BYTES && from <= i.now < from + WINDOW_MS
    requires Open(tr.budgets.bytes, i.now) && tr.budgets.bytes.value.used + i.bytes <= MAX_BYTES
    requires Open(tr.budgets.events, i.now) && tr.budgets.events.value.used + 1 <= MAX_EVENTS
    ensures var b, tr' := tr.budgets, Step(tr, i);
            && tr'.budgets.bytes == Some(b.bytes.value.(used := b.bytes.value.used + i.bytes))
            && tr'.budgets.events == Some(b.events.value.(used := b.events.value.used + 1))
            && Total(tr'.passed, from) == Total(tr.passed, from) + i.bytes
  {
    TotalSnoc(tr.passed, Entry(i.now, i.bytes), from);
  }

  /** The same input, `n` times over. */
  function Repeat(tr: Trace, n: nat, i: Input): Trace {
    if n == 0 then tr else Step(Repeat(tr, n - 1, i), i)
  }

  lemma {:induction false} RunBurst(prefix: seq<Input>, n: nat, now: int)
    ensures Run(prefix + Burst(n, now)) == Repeat(Run(prefix), n, Input(now, 4096))
  {
    if n == 0 {
      assert prefix + Burst(0, now) == prefix;
    } else {
      RunBurst(prefix, n - 1, now);
      assert prefix + Burst(n, now) == (prefix + Burst(n - 1, now)) + [Input(now, 4096)];
      RunSnoc(prefix + Burst(n - 1, now), Input(now, 4096));
    }
  }

  /** Both windows take `n` more inputs of 4096 bytes at `now`. */
  predicate Fits(b: Budgets, n: nat, now: int) {
    && Open(b.bytes, now) && b.bytes.value.used + n * 4096 <= MAX_BYTES
    && Open(b.events, now) && b.events.value.used + n <= MAX_EVENTS
  }

  predicate Grown(tr: Trace, tr': Trace, n: nat, from: int)
    requires tr.budgets.bytes.Some? && tr.budgets.events.Some?
  {
    && tr'.budgets.bytes == Some(tr.budgets.bytes.value.(used := tr.budgets.bytes.value.used + n * 4096))
    && tr'.budgets.events == Some(tr.budgets.events.value.(used := tr.budgets.events.value.used + n))
    && Total(tr'.passed, from) == Total(tr.passed, from) + n * 4096
  }

  lemma {:induction false} FitsOneLess(b: Budgets, n: nat, now: int)
    requires n > 0 && Fits(b, n, now)
    ensures Fits(b, n - 1, now)
  {}

  lemma {:induction false} RoomForOne(tr: Trace, mid: Trace, n: nat, now: int, from: int)
    requires n > 0 && Fits(tr.budgets, n, now) && Grown(tr, mid, n - 1, from)
    ensures Fits(mid.budgets, 1, now)
  {}

  lemma {:induction false} GrownTwice(tr: Trace, mid: Trace, last: Trace, n: nat, from: int)
    requires tr.budgets.bytes.Some? && tr.budgets.events.Some? && mid.budgets.bytes.Some? && mid.budgets.events.Some?
    requires n > 0 && Grown(tr, mid, n - 1, from) && Grown(mid, last, 1, from)
    ensures Grown(tr, last, n, from)
  {}

  lemma {:induction false} GrownOnce(tr: Trace, mid: Trace, n: nat, now: int, from: int)
    requires n > 0 && Fits(tr.budgets, n, now) && Grown(tr, mid, n - 1, from) && from <= now < from + WINDOW_MS
    ensures Grown(tr, Step(mid, Input(now, 4096)), n, from)
  {
    RoomForOne(tr, mid, n, now, from);
    StepPasses(mid, Input(now, 4096), from);
    GrownTwice(tr, mid, Step(mid, Input(now, 4096)), n, from);
  }

  /** A burst that fits the open windows passes whole. */
  lemma {:induction false} BurstPasses(tr: Trace, n: nat, now: int, from: int)
    requires from <= now < from + WINDOW_MS && Fits(tr.budgets, n, now)
    ensures Grown(tr, Repeat(tr, n, Input(now, 4096)), n, from)
  {
    if n > 0 {
      FitsOneLess(tr.budgets, n, now);
      BurstPasses(tr, n - 1, now, from);
      GrownOnce(tr, Repeat(tr, n - 1, Input(now, 4096)), n, now, from);
    }
  }

  /** One byte at time 0, the rest of the first window at 999 ms, and a second window from 1000 ms on. */
  function WorstCase(): seq<Input> {
    [Input(0, 1)] + Burst(7, 999) + [Input(999, 4095)] + [Input(1000, 4096)] + Burst(7, 1000)
  }

  lemma {:induction false} WorstCaseMonotone()
    ensures Monotone(WorstCase())
  {
    assert forall i :: 0 <= i < |WorstCase()| ==>
      WorstCase()[i].now == if i == 0 then 0 else if i < 9 then 999 else 1000;
  }

  /** The first second of the worst case, filled to the last byte. */
  function FirstSecond(): seq<Input> { [Input(0, 1)] + Burst(7, 999) + [Input(999, 4095)] }

  lemma {:induction false} AfterFirstSecond()
    ensures var tr := Run(FirstSecond());
            && tr.budgets == Budgets(Some(Window(0, 32768)), Some(Window(0, 9)))
            && Total(tr.passed, 999) == 32767
  {
    var one := [Input(0, 1)];
    assert one == [] + [Input(0, 1)];
    RunSnoc([], Input(0, 1));
    TotalSnoc([], Entry(0, 1), 999);
    var tr := Run(one);
    assert tr.budgets == Budgets(Some(Window(0, 1)), Some(Window(0, 1))) && Total(tr.passed, 999) == 0;
    RunBurst(one, 7, 999);
    BurstPasses(tr, 7, 999, 999);
    var s := one + Burst(7, 999);
    RunSnoc(s, Input(999, 4095));
    StepPasses(Run(s), Input(999, 4095), 999);
  }

  lemma {:induction false} AfterSecondBegins()
    ensures var tr := Run(FirstSecond() + [Input(1000, 4096)]);
            && tr.budgets == Budgets(Some(Window(1000, 4096)), Some(Window(1000, 1)))
            && Total(tr.passed, 999) == 36863
  {
    AfterFirstSecond();
    RunSnoc(FirstSecond(), Input(1000, 4096));
    TotalSnoc(Run(FirstSecond()).passed, Entry(1000, 4096), 999);
  }

  /** The second that starts at 999 ms lets through 65535 bytes: the bound cannot be lowered. */
  lemma {:induction false} BoundAttained()
    ensures Monotone(WorstCase()) && Total(Run(WorstCase()).passed, 999) == 65535
  {
    WorstCaseMonotone();
    AfterSecondBegins();
    var s := FirstSecond() + [Input(1000, 4096)];
    RunBurst(s, 7, 1000);
    BurstPasses(Run(s), 7, 1000, 999);
    assert WorstCase() == s + Burst(7, 1000);
  }
}
