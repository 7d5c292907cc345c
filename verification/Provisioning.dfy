/** The worker's `create_vm` for one VM: any number of deliveries behind a lock key and an id check. */
module Provisioning {
  import opened Outcomes
  import opened VmRows

  /** What a call to `template.instantiate` did: made a VM, made none, or made one and still raised. */
  datatype Reply = Made(id: int) | Raised | RaisedAfterMaking(id: int)

  /** Where a handler stands; `Unlocked` is one whose attempt to lock raised, so that it has nothing to release. */
  datatype Phase =
    | Delivered
    | Unlocked
    | Locked
    | Unassigned
    | Ready
    | Retrying
    | Instantiated(id: int)
    | Recorded
    | Failing
    | Releasing
    | Ended

  /** The lock key is only present or absent: it does not say who set it. `made` lists the VMs in OpenNebula. */
  datatype State = State(lock: bool, row: VmRow, made: seq<int>, handlers: map<int, Phase>)

  datatype Event =
    | Deliver(h: int)
    | TryLock(h: int, redisOk: bool)
    | ReadOneVmId(h: int, dbOk: bool)
    | Validate(h: int, ok: bool)
    | Instantiate(h: int, reply: Reply)
    | Record(h: int, dbOk: bool)
    | Publish(h: int, ok: bool)
    | MarkError(h: int, dbOk: bool)
    | Release(h: int, redisOk: bool)
    | ExpireLock

  const Initial := State(false, NewRow, [], map[])

  function PhaseOf(s: State, h: int): Phase { if h in s.handlers then s.handlers[h] else Ended }

  function Move(s: State, h: int, p: Phase): State { s.(handlers := s.handlers[h := p]) }

  function MadeBy(reply: Reply): seq<int> { if reply.Raised? then [] else [reply.id] }

  /** `update_vm_status` with ERROR, if that call succeeds; the time only matters for STOPPED. */
  function Marked(row: VmRow, dbOk: bool): VmRow { if dbOk then UpdateVmStatus(row, ERROR, None, 0) else row }

  function WithId(row: VmRow, id: int): VmRow { UpdateVmStatus(row, PENDING, Some(id), 0) }

  /** The row that `createVm` inserted. */
  const NewRow := VmRow(PENDING, 0, None, None)

  /** One step; an event that is not possible in the state changes nothing. */
  function Step(s: State, e: Event): State {
    match e
    case Deliver(h) => if h in s.handlers then s else Move(s, h, Delivered)
    case TryLock(h, redisOk) =>
      if !PhaseOf(s, h).Delivered? then s
      else if !redisOk then Move(s, h, Unlocked)
      else if s.lock then Move(s, h, Ended)
      else Move(s.(lock := true), h, Locked)
    case ReadOneVmId(h, dbOk) =>
      if !PhaseOf(s, h).Locked? then s
      else Move(s, h, if dbOk && s.row.oneVmId.Some? then Releasing else Unassigned)
    case Validate(h, ok) =>
      if !PhaseOf(s, h).Unassigned? then s else Move(s, h, if ok then Ready else Failing)
    case Instantiate(h, reply) =>
      if !Calling(PhaseOf(s, h)) then s
      else
        Move(s.(made := s.made + MadeBy(reply)), h,
             if reply.Made? then Instantiated(reply.id) else if PhaseOf(s, h).Ready? then Retrying else Failing)
    case Record(h, dbOk) =>
      if !PhaseOf(s, h).Instantiated? then s
      else if dbOk then Move(s.(row := WithId(s.row, PhaseOf(s, h).id)), h, Recorded)
      else Move(s, h, Failing)
    case Publish(h, ok) =>
      if !PhaseOf(s, h).Recorded? then s else Move(s, h, if ok then Releasing else Failing)
    case MarkError(h, dbOk) =>
      if PhaseOf(s, h).Failing? then Move(s.(row := Marked(s.row, dbOk)), h, Releasing)
      else if PhaseOf(s, h).Unlocked? then Move(s.(row := Marked(s.row, dbOk)), h, Ended)
      else s
    case Release(h, redisOk) =>
      if !PhaseOf(s, h).Releasing? then s
      else Move(if redisOk then s.(lock := false) else s, h, Ended)
    case ExpireLock => s.(lock := false)
  }

  function After(run: seq<Event>): State {
    if run == [] then Initial else Step(After(run[..|run| - 1]), run[|run| - 1])
  }

  /** About to call `instantiate`, for the first time or again. */
  predicate Calling(p: Phase) { p.Ready? || p.Retrying? }

  /** On the way to a call, having seen no id. */
  predicate BeforeMaking(p: Phase) { p.Unassigned? || Calling(p) }

  /** Between taking and releasing the lock. */
  predicate Critical(p: Phase) { !p.Delivered? && !p.Unlocked? && !p.Ended? }

  // ---------------------------------------------------------------- one handler on its own

  predicate ValidNameChar(c: char) { 'a' <= c <= 'z' || 'A' <= c <= 'Z' || '0' <= c <= '9' || c == '-' }

  /** Digits, upper-case letters, lower-case letters and the hyphen, by their codes. */
  lemma {:induction false} NameCharCodes(c: char)
    ensures var n := c as int;
            ValidNameChar(c) <==> 48 <= n <= 57 || 65 <= n <= 90 || 97 <= n <= 122 || n == 45
  {}

  predicate ValidName(name: string) {
    1 <= |name| <= 64 && forall i :: 0 <= i < |name| ==> ValidNameChar(name[i])
  }

  /** Not empty, not longer than 64, and made of those characters alone. */
  lemma {:induction false} NameMeans(name: string)
    ensures ValidName(name) <==>
            name != "" && !(|name| > 64) && !exists i :: 0 <= i < |name| && !ValidNameChar(name[i])
  {}

  /** Which of the handler's calls to the key store, the database and the message bus succeed. */
  datatype Calls = Calls(lock: bool, read: bool, record: bool, publish: bool, mark: bool, release: bool)

  datatype Outcome = Skipped | Resumed(id: int) | Created(id: int) | Failed

  datatype Effect = Effect(lock: bool, row: VmRow, made: seq<int>, outcome: Outcome)

  /** What is made by the calls with and, if that raised, without credentials. */
  function MadeInAll(first: Reply, second: Reply): seq<int> {
    MadeBy(first) + (if first.Made? then [] else MadeBy(second))
  }

  /** What one delivery does when no other is under way. */
  function Handle(lock: bool, row: VmRow, valid: bool, first: Reply, second: Reply, ok: Calls): Effect {
    if !ok.lock then Effect(lock, Marked(row, ok.mark), [], Failed)
    else if lock then Effect(lock, row, [], Skipped)
    else if ok.read && row.oneVmId.Some? then Effect(!ok.release, row, [], Resumed(row.oneVmId.value))
    else if !valid then Effect(!ok.release, Marked(row, ok.mark), [], Failed)
    else
      var made := MadeInAll(first, second);
      var last := if first.Made? then first else second;
      if !last.Made? || !ok.record then Effect(!ok.release, Marked(row, ok.mark), made, Failed)
      else
        var recorded := WithId(row, last.id);
        if ok.publish then Effect(!ok.release, recorded, made, Created(last.id))
        else Effect(!ok.release, Marked(recorded, ok.mark), made, Failed)
  }

  /** The delivery comes as far as the calls to OpenNebula. */
  predicate ReachesCalls(lock: bool, row: VmRow, valid: bool, ok: Calls) {
    ok.lock && !lock && (row.oneVmId.None? || !ok.read) && valid
  }

  /** The first of the two calls that returned an id. */
  function Returned(first: Reply, second: Reply): Option<int> {
    match first
    case Made(id) => Some(id)
    case _ => if second.Made? then Some(second.id) else None
  }

  /** What the outcome, the row and the lock of one delivery are, field by field. */
  predicate Explains(lock: bool, row: VmRow, valid: bool, first: Reply, second: Reply, ok: Calls, lock': bool, row': VmRow, r: Outcome) {
    var id := if ReachesCalls(lock, row, valid, ok) then Returned(first, second) else None;
    && (r == Skipped <==> ok.lock && lock)
    && (r.Resumed? <==> ok.lock && !lock && ok.read && row.oneVmId.Some?)
    && (r.Resumed? ==> Some(r.id) == row.oneVmId)
    && (r.Created? <==> id.Some? && ok.record && ok.publish)
    && (r.Created? ==> Some(r.id) == id && row'.status == PENDING)
    && (r.Failed? ==> row'.status == if ok.mark then ERROR else if id.Some? && ok.record then PENDING else row.status)
    && (r.Skipped? || r.Resumed? ==> row' == row)
    && row'.oneVmId == (if id.Some? && ok.record then id else row.oneVmId)
    && row'.createdAt == row.createdAt && row'.stoppedAt == row.stoppedAt
    && lock' == if ok.lock && !lock then !ok.release else lock
  }

  lemma {:induction false} HandleMeans(lock: bool, row: VmRow, valid: bool, first: Reply, second: Reply, ok: Calls)
    ensures var h := Handle(lock, row, valid, first, second, ok);
            && Explains(lock, row, valid, first, second, ok, h.lock, h.row, h.outcome)
            && h.made == if ReachesCalls(lock, row, valid, ok) then MadeInAll(first, second) else []
  {}

  class VmWorker {
    var lock: bool
    var row: VmRow
    var made: seq<int>

    constructor ()
      ensures !lock && row == NewRow && made == []
    {
      lock, row, made := false, NewRow, [];
    }

    method IsValidName(name: string) returns (ok: bool)
      ensures ok == ValidName(name)
    {
      if !(1 <= |name| <= 64) {
        return false;
      }
      for i := 0 to |name|
        invariant forall j :: 0 <= j < i ==> ValidNameChar(name[j])
      {
        if !ValidNameChar(name[i]) {
          return false;
        }
      }
      ok := true;
    }

    method CallInstantiate(reply: Reply) returns (id: Option<int>)
      modifies this`made
      ensures made == old(made) + MadeBy(reply)
      ensures id == if reply.Made? then Some(reply.id) else None
    {
      made := made + MadeBy(reply);
      id := if reply.Made? then Some(reply.id) else None;
    }

    /** The call with credentials and, if it raises, the one without. */
    method InstantiateWithRetry(first: Reply, second: Reply) returns (id: Option<int>)
      modifies this`made
      ensures made == old(made) + MadeInAll(first, second)
      ensures id == if first.Made? then Some(first.id) else if second.Made? then Some(second.id) else None
    {
      id := CallInstantiate(first);
      if id.None? {
        id := CallInstantiate(second);
      }
    }

    /**
      `first` and `second` are OpenNebula's replies to the calls with and without credentials, if made,
      and `ok` says which other calls succeed; a failed read of the id returns none.
    */
    method CreateVm(name: string, templateFound: bool, first: Reply, second: Reply, ok: Calls) returns (r: Outcome)
      modifies this
      ensures var h := Handle(old(lock), old(row), ValidName(name) && templateFound, first, second, ok);
              lock == h.lock && row == h.row && made == old(made) + h.made && r == h.outcome
      ensures Explains(old(lock), old(row), ValidName(name) && templateFound, first, second, ok, lock, row, r)
    {
      HandleMeans(lock, row, ValidName(name) && templateFound, first, second, ok);
      if !ok.lock {
        row := Marked(row, ok.mark);
        return Failed;
      }
      if lock {
        return Skipped;
      }
      lock := true;
      var existing := if ok.read then row.oneVmId else None;
      if existing.Some? {
        lock := !ok.release;
        return Resumed(existing.value);
      }
      var valid := IsValidName(name);
      var id: Option<int> := None;
      if valid && templateFound {
        id := InstantiateWithRetry(first, second);
      }
      r := Failed;
      if id.Some? && ok.record {
        row := WithId(row, id.value);
        if ok.publish {
          r := Created(id.value);
        }
      }
      if r == Failed {
        row := Marked(row, ok.mark);
      }
      lock := !ok.release;
    }
  }

  /** The steps of one handler in a row, up to its attempts to instantiate. */
  function Prepared(s: State, h: int, valid: bool, ok: Calls): State {
    Step(Step(Step(Step(s, Deliver(h)), TryLock(h, ok.lock)), ReadOneVmId(h, ok.read)), Validate(h, valid))
  }

  function Attempted(s: State, h: int, first: Reply, second: Reply): State {
    var s' := Step(s, Instantiate(h, first));
    if PhaseOf(s', h).Retrying? then Step(s', Instantiate(h, second)) else s'
  }

  function Finished(s: State, h: int, ok: Calls): State {
    Step(Step(Step(Step(s, Record(h, ok.record)), Publish(h, ok.publish)), MarkError(h, ok.mark)), Release(h, ok.release))
  }

  lemma {:induction false} AfterPrepared(s: State, h: int, valid: bool, ok: Calls)
    requires h !in s.handlers
    ensures var s' := Prepared(s, h, valid, ok);
            && s'.row == s.row && s'.made == s.made && s'.lock == (s.lock || ok.lock)
            && PhaseOf(s', h) == if !ok.lock then Unlocked
                                 else if s.lock then Ended
                                 else if ok.read && s.row.oneVmId.Some? then Releasing
                                 else if valid then Ready else Failing
  {}

  lemma {:induction false} AfterAttempted(s: State, h: int, first: Reply, second: Reply)
    requires PhaseOf(s, h).Ready?
    ensures var s' := Attempted(s, h, first, second);
            && s'.row == s.row && s'.lock == s.lock
            && s'.made == s.made + MadeInAll(first, second)
            && PhaseOf(s', h) == if first.Made? then Instantiated(first.id) else if second.Made? then Instantiated(second.id) else Failing
  {}

  lemma {:induction false} AfterFailing(s: State, h: int, ok: Calls)
    requires PhaseOf(s, h).Failing?
    ensures var s' := Step(Step(s, MarkError(h, ok.mark)), Release(h, ok.release));
            && s'.made == s.made && s'.lock == (s.lock && !ok.release) && PhaseOf(s', h) == Ended
            && s'.row == Marked(s.row, ok.mark)
  {}

  lemma {:induction false} AfterFinished(s: State, h: int, ok: Calls)
    requires PhaseOf(s, h).Instantiated? || PhaseOf(s, h).Failing? || PhaseOf(s, h).Releasing?
    ensures var s' := Finished(s, h, ok);
            && s'.made == s.made && s'.lock == (s.lock && !ok.release) && PhaseOf(s', h) == Ended
            && s'.row == if PhaseOf(s, h).Releasing? then s.row
                         else if PhaseOf(s, h).Failing? || !ok.record then Marked(s.row, ok.mark)
                         else if ok.publish then WithId(s.row, PhaseOf(s, h).id)
                         else Marked(WithId(s.row, PhaseOf(s, h).id), ok.mark)
  {
    var s' := Step(Step(s, Record(h, ok.record)), Publish(h, ok.publish));
    if PhaseOf(s', h).Failing? {
      AfterFailing(s', h, ok);
    }
  }

  lemma {:induction false} AfterUnlocked(s: State, h: int, ok: Calls)
    requires PhaseOf(s, h).Unlocked? || PhaseOf(s, h).Ended?
    ensures var s' := Finished(s, h, ok);
            && s'.made == s.made && s'.lock == s.lock && PhaseOf(s', h) == Ended
            && s'.row == if PhaseOf(s, h).Unlocked? then Marked(s.row, ok.mark) else s.row
  {}

  /** Taken in a row, the steps do what the method does, whichever calls fail. */
  lemma {:induction false} AloneIsCreateVm(s: State, h: int, valid: bool, first: Reply, second: Reply, ok: Calls)
    requires h !in s.handlers
    ensures var s' := Finished(Attempted(Prepared(s, h, valid, ok), h, first, second), h, ok);
            var r := Handle(s.lock, s.row, valid, first, second, ok);
            s'.row == r.row && s'.made == s.made + r.made && s'.lock == r.lock && PhaseOf(s', h) == Ended
  {
    AfterPrepared(s, h, valid, ok);
    Completed(s, Prepared(s, h, valid, ok), h, valid, first, second, ok);
  }

  lemma {:induction false} Completed(s: State, s1: State, h: int, valid: bool, first: Reply, second: Reply, ok: Calls)
    requires s1.row == s.row && s1.made == s.made && s1.lock == (s.lock || ok.lock)
    requires PhaseOf(s1, h) == if !ok.lock then Unlocked
                               else if s.lock then Ended
                               else if ok.read && s.row.oneVmId.Some? then Releasing
                               else if valid then Ready else Failing
    ensures var s' := Finished(Attempted(s1, h, first, second), h, ok);
            var r := Handle(s.lock, s.row, valid, first, second, ok);
            s'.row == r.row && s'.made == s.made + r.made && s'.lock == r.lock && PhaseOf(s', h) == Ended
  {
    if PhaseOf(s1, h).Ready? {
      AfterCalls(s1, h, first, second, ok);
    } else {
      assert Attempted(s1, h, first, second) == s1;
      NoCalls(s1, h, ok);
      assert s.made + [] == s.made;
    }
  }

  lemma {:induction false} AfterCalls(s: State, h: int, first: Reply, second: Reply, ok: Calls)
    requires PhaseOf(s, h).Ready?
    ensures var s' := Finished(Attempted(s, h, first, second), h, ok);
            && s'.made == s.made + MadeInAll(first, second) && s'.lock == (s.lock && !ok.release) && PhaseOf(s', h) == Ended
            && s'.row == var last := if first.Made? then first else second;
                         if !last.Made? || !ok.record then Marked(s.row, ok.mark)
                         else if ok.publish then WithId(s.row, last.id)
                         else Marked(WithId(s.row, last.id), ok.mark)
  {
    AfterAttempted(s, h, first, second);
    AfterFinished(Attempted(s, h, first, second), h, ok);
  }

  lemma {:induction false} NoCalls(s: State, h: int, ok: Calls)
    requires var p := PhaseOf(s, h); p.Ended? || p.Unlocked? || p.Releasing? || p.Failing?
    ensures var s', p := Finished(s, h, ok), PhaseOf(s, h);
            && s'.made == s.made && PhaseOf(s', h) == Ended
            && s'.lock == (if p.Ended? || p.Unlocked? then s.lock else s.lock && !ok.release)
            && s'.row == if p.Unlocked? || p.Failing? then Marked(s.row, ok.mark) else s.row
  {
    if PhaseOf(s, h).Ended? || PhaseOf(s, h).Unlocked? {
      AfterUnlocked(s, h, ok);
    } else {
      AfterFinished(s, h, ok);
    }
  }

  // ---------------------------------------------------------------- the row from the history

  /** The event writes an id that a handler was given. */
  predicate WritesId(s: State, e: Event) { e.Record? && e.dbOk && PhaseOf(s, e.h).Instantiated? }

  /** The event writes ERROR for a handler that failed, with or without its lock. */
  predicate WritesError(s: State, e: Event) {
    e.MarkError? && e.dbOk && (PhaseOf(s, e.h).Failing? || PhaseOf(s, e.h).Unlocked?)
  }

  /** The status last written: ERROR after a failure that could be marked, until an id is recorded. */
  function LastStatus(run: seq<Event>): VmStatus {
    if run == [] then PENDING
    else
      var s, e := After(run[..|run| - 1]), run[|run| - 1];
      if WritesError(s, e) then ERROR else if WritesId(s, e) then PENDING else LastStatus(run[..|run| - 1])
  }

  /** The id last recorded. */
  function LastId(run: seq<Event>): Option<int> {
    if run == [] then None
    else
      var s, e := After(run[..|run| - 1]), run[|run| - 1];
      if WritesId(s, e) then Some(PhaseOf(s, e.h).id) else LastId(run[..|run| - 1])
  }

  lemma {:induction false} RowAfterStep(s: State, e: Event)
    ensures var row' := Step(s, e).row;
            && row'.status == (if WritesError(s, e) then ERROR else if WritesId(s, e) then PENDING else s.row.status)
            && row'.oneVmId == (if WritesId(s, e) then Some(PhaseOf(s, e.h).id) else s.row.oneVmId)
            && row'.createdAt == s.row.createdAt && row'.stoppedAt == s.row.stoppedAt
  {}

  /** In every interleaving the row shows the status last written and the id last recorded, and nothing else changes. */
  lemma {:induction false} RowFromHistory(run: seq<Event>)
    ensures var row := After(run).row;
            && row.status == LastStatus(run) && row.oneVmId == LastId(run)
            && row.createdAt == NewRow.createdAt && row.stoppedAt == NewRow.stoppedAt
  {
    if run != [] {
      RowFromHistory(run[..|run| - 1]);
      RowAfterStep(After(run[..|run| - 1]), run[|run| - 1]);
    }
  }

  // ---------------------------------------------------------------- one handler at a time

  /** A handler between taking and releasing the lock has the lock set, and is the only one. */
  ghost predicate Exclusive(s: State) {
    && (forall h :: h in s.handlers && Critical(s.handlers[h]) ==> s.lock)
    && (forall h, k :: h in s.handlers && k in s.handlers && Critical(s.handlers[h]) && Critical(s.handlers[k]) ==> h == k)
  }

  /** The lock expires under a handler that works. */
  predicate ExpiresEarly(s: State, e: Event) {
    e.ExpireLock? && exists h :: h in s.handlers && Critical(s.handlers[h])
  }

  predicate LockLasts(run: seq<Event>) {
    run == [] || (LockLasts(run[..|run| - 1]) && !ExpiresEarly(After(run[..|run| - 1]), run[|run| - 1]))
  }

  /** Any step that moves one handler keeps it, as long as who becomes critical takes the lock and who gives the lock up was. */
  lemma {:induction false} MoveKeepsExclusion(s: State, s': State, h: int, p: Phase)
    requires Exclusive(s) && s'.handlers == s.handlers[h := p]
    requires if Critical(p) then s'.lock && (Critical(PhaseOf(s, h)) || !s.lock)
             else s'.lock == s.lock || Critical(PhaseOf(s, h))
    ensures Exclusive(s')
  {}

  lemma {:induction false} StepKeepsExclusion(s: State, e: Event)
    requires Exclusive(s) && !ExpiresEarly(s, e)
    ensures Exclusive(Step(s, e))
  {
    var s' := Step(s, e);
    if !e.ExpireLock? && s' != s {
      assert s'.handlers == s.handlers[e.h := s'.handlers[e.h]];
      MoveKeepsExclusion(s, s', e.h, s'.handlers[e.h]);
    }
  }

  /**
    For every interleaving of any number of deliveries, whatever the database and OpenNebula do: two
    handlers are never both between taking and releasing the lock, if it never expires under one.
  */
  lemma {:induction false} OneHandlerAtATime(run: seq<Event>)
    requires LockLasts(run)
    ensures Exclusive(After(run))
  {
    if run != [] {
      OneHandlerAtATime(run[..|run| - 1]);
      StepKeepsExclusion(After(run[..|run| - 1]), run[|run| - 1]);
    }
  }

  // ---------------------------------------------------------------- safety over every interleaving

  /**
    The guard under which an event cannot lead to a second VM: the lock may expire once the id is
    recorded or while nobody works under it, a read of the id may fail while there is none, a record
    must succeed, and a call that raises must have made nothing.
  */
  predicate Harmless(s: State, e: Event) {
    match e
    case ExpireLock => s.row.oneVmId.Some? || forall h :: h in s.handlers ==> !Critical(s.handlers[h])
    case ReadOneVmId(h, dbOk) => dbOk || !PhaseOf(s, h).Locked? || s.row.oneVmId.None?
    case Record(h, dbOk) => dbOk || !PhaseOf(s, h).Instantiated?
    case Instantiate(h, reply) => !reply.RaisedAfterMaking? || !Calling(PhaseOf(s, h))
    case _ => true
  }

  predicate HarmlessRun(run: seq<Event>) {
    run == [] || (HarmlessRun(run[..|run| - 1]) && Harmless(After(run[..|run| - 1]), run[|run| - 1]))
  }

  predicate InHands(s: State) { exists h :: h in s.handlers && s.handlers[h].Instantiated? }

  /** While no id is recorded: one handler at most under the lock, one VM at most, in the hands of the handler that made it. */
  ghost predicate Unrecorded(s: State) {
    && (forall h :: h in s.handlers && Critical(s.handlers[h]) ==> s.lock)
    && (forall h, k :: h in s.handlers && k in s.handlers && Critical(s.handlers[h]) && Critical(s.handlers[k]) ==> h == k)
    && |s.made| <= 1
    && (forall h :: h in s.handlers && BeforeMaking(s.handlers[h]) ==> s.made == [])
    && (forall h :: h in s.handlers && s.handlers[h].Instantiated? ==> s.made == [s.handlers[h].id])
    && (forall h :: h in s.handlers ==> !s.handlers[h].Recorded?)
    && (s.made != [] ==> InHands(s))
  }

  /** Once the id is recorded: it is that of the only VM, and no handler is on its way to another. */
  ghost predicate IsRecorded(s: State) {
    && s.row.oneVmId.Some? && s.made == [s.row.oneVmId.value]
    && (forall h :: h in s.handlers ==> !BeforeMaking(s.handlers[h]) && !s.handlers[h].Instantiated?)
  }

  ghost predicate Inv(s: State) {
    if s.row.oneVmId.Some? then IsRecorded(s) else Unrecorded(s)
  }

  lemma {:induction false} StillInHands(s: State, s': State, h: int, p: Phase)
    requires s'.handlers == s.handlers[h := p] && (PhaseOf(s, h).Instantiated? ==> p.Instantiated?)
    ensures InHands(s) ==> InHands(s')
  {
    if InHands(s) {
      var k :| k in s.handlers && s.handlers[k].Instantiated?;
      assert k in s'.handlers && s'.handlers[k].Instantiated?;
    }
  }

  lemma {:induction false} StillSame(s: State, s': State)
    requires s'.handlers == s.handlers
    ensures InHands(s) == InHands(s')
  {}

  /** A handler that neither takes, makes nor records anything. */
  lemma {:induction false} MoveKeepsInv(s: State, h: int, p: Phase)
    requires Inv(s) && !PhaseOf(s, h).Instantiated? && !p.Instantiated?
    requires s.row.oneVmId.None? ==> (Critical(p) ==> Critical(PhaseOf(s, h))) && !p.Recorded? && (BeforeMaking(p) ==> s.made == [])
    requires s.row.oneVmId.Some? ==> !BeforeMaking(p)
    ensures Inv(Move(s, h, p))
  {
    StillInHands(s, Move(s, h, p), h, p);
  }

  lemma {:induction false} InstantiateKeepsInv(s: State, h: int, reply: Reply)
    requires Inv(s) && !reply.RaisedAfterMaking? && Calling(PhaseOf(s, h))
    ensures Inv(Step(s, Instantiate(h, reply)))
  {
    if reply.Made? {
      assert Step(s, Instantiate(h, reply)).handlers[h].Instantiated?;
    } else {
      assert s.made + [] == s.made;
    }
  }

  lemma {:induction false} RecordKeepsInv(s: State, h: int)
    requires Inv(s) && PhaseOf(s, h).Instantiated?
    ensures Inv(Step(s, Record(h, true)))
  {}

  lemma {:induction false} LockKeepsInv(s: State, h: int)
    requires Inv(s) && PhaseOf(s, h).Delivered? && !s.lock
    ensures Inv(Step(s, TryLock(h, true)))
  {
    StillInHands(s, Step(s, TryLock(h, true)), h, Locked);
  }

  lemma {:induction false} RowKeepsInv(s: State, dbOk: bool)
    requires Inv(s)
    ensures Inv(s.(row := Marked(s.row, dbOk)))
  {
    StillSame(s, s.(row := Marked(s.row, dbOk)));
  }

  lemma {:induction false} UnlockKeepsInv(s: State)
    requires Inv(s) && (s.row.oneVmId.Some? || forall h :: h in s.handlers ==> !Critical(s.handlers[h]))
    ensures Inv(s.(lock := false))
  {
    StillSame(s, s.(lock := false));
  }

  lemma {:induction false} FailureKeepsInv(s: State, h: int, dbOk: bool)
    requires Inv(s) && (PhaseOf(s, h).Failing? || PhaseOf(s, h).Unlocked?)
    ensures Inv(Step(s, MarkError(h, dbOk)))
  {
    var p := if PhaseOf(s, h).Failing? then Releasing else Ended;
    MoveKeepsInv(s, h, p);
    RowKeepsInv(Move(s, h, p), dbOk);
  }

  lemma {:induction false} ReleaseKeepsInv(s: State, h: int, redisOk: bool)
    requires Inv(s) && PhaseOf(s, h).Releasing?
    ensures Inv(Step(s, Release(h, redisOk)))
  {
    MoveKeepsInv(s, h, Ended);
    UnlockKeepsInv(Move(s, h, Ended));
  }

  lemma {:induction false} ReadKeepsInv(s: State, h: int, dbOk: bool)
    requires Inv(s) && PhaseOf(s, h).Locked? && (dbOk || s.row.oneVmId.None?)
    ensures Inv(Step(s, ReadOneVmId(h, dbOk)))
  {
    MoveKeepsInv(s, h, if dbOk && s.row.oneVmId.Some? then Releasing else Unassigned);
  }

  /** Every step under the guard keeps one VM at most, and its id in the row or in the hands of its maker. */
  lemma {:induction false} StepKeepsInv(s: State, e: Event)
    requires Inv(s) && Harmless(s, e)
    ensures Inv(Step(s, e))
  {
    match e
    case Deliver(h) => if h !in s.handlers { MoveKeepsInv(s, h, Delivered); }
    case TryLock(h, redisOk) =>
      if PhaseOf(s, h).Delivered? {
        if redisOk && !s.lock { LockKeepsInv(s, h); } else { MoveKeepsInv(s, h, if redisOk then Ended else Unlocked); }
      }
    case ReadOneVmId(h, dbOk) => if PhaseOf(s, h).Locked? { ReadKeepsInv(s, h, dbOk); }
    case Validate(h, ok) => if PhaseOf(s, h).Unassigned? { MoveKeepsInv(s, h, if ok then Ready else Failing); }
    case Instantiate(h, reply) => if Calling(PhaseOf(s, h)) { InstantiateKeepsInv(s, h, reply); }
    case Record(h, _) => if PhaseOf(s, h).Instantiated? { RecordKeepsInv(s, h); }
    case Publish(h, ok) => if PhaseOf(s, h).Recorded? { MoveKeepsInv(s, h, if ok then Releasing else Failing); }
    case MarkError(h, dbOk) =>
      if PhaseOf(s, h).Failing? || PhaseOf(s, h).Unlocked? { FailureKeepsInv(s, h, dbOk); }
    case Release(h, redisOk) => if PhaseOf(s, h).Releasing? { ReleaseKeepsInv(s, h, redisOk); }
    case ExpireLock => UnlockKeepsInv(s);
  }

  lemma {:induction false} RunInv(run: seq<Event>)
    requires HarmlessRun(run)
    ensures Inv(After(run))
  {
    if run != [] {
      RunInv(run[..|run| - 1]);
      StepKeepsInv(After(run[..|run| - 1]), run[|run| - 1]);
    }
  }

  /**
    For every interleaving of any number of deliveries, under the guard: one VM at most; its id is in
    the row unless its maker still holds it; and until then one handler at most works under the lock.
  */
  lemma {:induction false} AtMostOneVm(run: seq<Event>)
    requires HarmlessRun(run)
    ensures var s := After(run);
            && |s.made| <= 1
            && (!InHands(s) ==> s.row.oneVmId == if s.made == [] then None else Some(s.made[0]))
            && (s.row.oneVmId.None? ==>
                  forall h, k :: h in s.handlers && k in s.handlers && Critical(s.handlers[h]) && Critical(s.handlers[k]) ==> h == k)
  {
    RunInv(run);
  }
}
