/** The `vm.status.update` handler: a row's status and `stoppedAt` under every sequence of messages. */
module VmStatusUpdates {
  import opened Outcomes
  import opened VmRows
  import opened VmHours

  /** A message; a status outside the database's own, such as BOOT, is `None`. */
  datatype Message = Message(status: Option<VmStatus>, oneVmId: Option<int>)

  predicate StopsVm(s: VmStatus) { s == STOPPED || s == SUSPENDED || s == ERROR }

  /** Status and `stoppedAt` agree. */
  predicate Consistent(row: VmRow) {
    && (row.status == RUNNING ==> row.stoppedAt.None?)
    && (StopsVm(row.status) || row.status == DELETED ==> row.stoppedAt.Some?)
  }

  function Written(row: VmRow, m: Message, now: int): VmRow
    requires m.status.Some?
  {
    row.(status := m.status.value,
         stoppedAt := if StopsVm(m.status.value) then Some(now) else if m.status.value == RUNNING then None else row.stoppedAt,
         oneVmId := if m.oneVmId.Some? && m.oneVmId.value != 0 then m.oneVmId else row.oneVmId)
  }

  /** The second update of a deletion: `stoppedAt` is set if it was null. */
  function Finished(row: VmRow, now: int): VmRow { row.(stoppedAt := Coalesce(row.stoppedAt, now)) }

  /** A message handled to its end. */
  function Handled(row: VmRow, m: Message, now: int): VmRow {
    if m.status.None? then row
    else if m.status.value == DELETED then Finished(row.(status := DELETED), now)
    else Written(row, m, now)
  }

  class StatusHandler {
    var rows: map<string, VmRow>

    constructor (rows: map<string, VmRow>)
      ensures this.rows == rows
    {
      this.rows := rows;
    }

    method OnStatusUpdate(vmId: string, m: Message, now: int)
      modifies this
      ensures rows == if vmId in old(rows) then old(rows)[vmId := Handled(old(rows)[vmId], m, now)] else old(rows)
    {
      if m.status.None? {
        assert vmId in rows ==> rows == rows[vmId := rows[vmId]];
        return;
      }
      if vmId !in rows {
        return;
      }
      var status := m.status.value;
      if status == DELETED {
        rows := rows[vmId := rows[vmId].(status := DELETED)];
        if rows[vmId].stoppedAt.None? {
          rows := rows[vmId := rows[vmId].(stoppedAt := Some(now))];
        }
        return;
      }
      var updated := rows[vmId].(status := status);
      if status == STOPPED || status == SUSPENDED || status == ERROR {
        updated := updated.(stoppedAt := Some(now));
      } else if status == RUNNING {
        updated := updated.(stoppedAt := None);
      }
      if m.oneVmId.Some? && m.oneVmId.value != 0 {
        updated := updated.(oneVmId := m.oneVmId);
      }
      rows := rows[vmId := updated];
    }
  }

  // ---------------------------------------------------------------- handlers that interleave

  /** The subscription does not wait for a handler: another message may come between the two updates of a deletion. */
  datatype State = State(row: VmRow, unfinished: nat)

  datatype Event = Arrive(m: Message, now: int) | FinishDelete(now: int)

  function Step(s: State, e: Event): State {
    match e
    case Arrive(m, now) =>
      if m.status.None? then s
      else if m.status.value == DELETED then State(s.row.(status := DELETED), s.unfinished + 1)
      else s.(row := Written(s.row, m, now))
    case FinishDelete(now) => if s.unfinished == 0 then s else State(Finished(s.row, now), s.unfinished - 1)
  }

  function After(row: VmRow, run: seq<Event>): State {
    if run == [] then State(row, 0) else Step(After(row, run[..|run| - 1]), run[|run| - 1])
  }

  /** The last status written, and whether a deletion was then half done. */
  datatype Last = Last(status: VmStatus, overtook: bool)

  function LastWrite(row: VmRow, run: seq<Event>): Option<Last> {
    if run == [] then None
    else
      var before, e := run[..|run| - 1], run[|run| - 1];
      if e.Arrive? && e.m.status.Some? then Some(Last(e.m.status.value, After(row, before).unfinished > 0))
      else LastWrite(row, before)
  }

  /** A deletion whose two updates follow each other is a message handled to its end. */
  lemma {:induction false} AloneIsHandled(row: VmRow, m: Message, now: int)
    ensures var s := Step(State(row, 0), Arrive(m, now));
            (if m.status == Some(DELETED) then Step(s, FinishDelete(now)) else s) == State(Handled(row, m, now), 0)
  {}

  ghost predicate Inv(s: State, last: Option<Last>) {
    && (last.None? ==> Consistent(s.row) && s.unfinished == 0)
    && (last.Some? ==>
          && s.row.status == last.value.status
          && (StopsVm(last.value.status) ==> s.row.stoppedAt.Some?)
          && (last.value.status == DELETED ==> s.row.stoppedAt.Some? || s.unfinished > 0)
          && (last.value.status == RUNNING ==>
                if last.value.overtook then s.row.stoppedAt.Some? || s.unfinished > 0
                else s.row.stoppedAt.None? && s.unfinished == 0))
  }

  lemma {:induction false} RunInv(row: VmRow, run: seq<Event>)
    requires Consistent(row)
    ensures Inv(After(row, run), LastWrite(row, run))
  {
    if run != [] { RunInv(row, run[..|run| - 1]); }
  }

  /**
    Once every deletion is finished, status and `stoppedAt` agree for every interleaving of handlers,
    except exactly when the last status written was RUNNING and it overtook a half-done deletion.
  */
  lemma {:induction false} ConsistentWhenQuiet(row: VmRow, run: seq<Event>)
    requires Consistent(row) && After(row, run).unfinished == 0
    ensures Consistent(After(row, run).row) <==> LastWrite(row, run) != Some(Last(RUNNING, true))
  {
    RunInv(row, run);
  }

  const Deleted := Message(Some(DELETED), None)
  const Running := Message(Some(RUNNING), None)

  /** The exception: a RUNNING message between the two updates of a deletion ends with a `stoppedAt`. */
  lemma {:induction false} RunningOvertakes(row: VmRow)
    requires Consistent(row)
    ensures var s := After(row, [Arrive(Deleted, 0), Arrive(Running, 1), FinishDelete(2)]);
            s.unfinished == 0 && s.row.status == RUNNING && s.row.stoppedAt == Some(2) && !Consistent(s.row)
  {
    var one, two := [Arrive(Deleted, 0)], [Arrive(Deleted, 0), Arrive(Running, 1)];
    assert [Arrive(Deleted, 0), Arrive(Running, 1), FinishDelete(2)][..2] == two && two[..1] == one && one[..0] == [];
    assert After(row, one) == State(row.(status := DELETED), 1);
  }

  function HandledAll(row: VmRow, ms: seq<(Message, int)>): VmRow {
    if ms == [] then row else Handled(HandledAll(row, ms[..|ms| - 1]), ms[|ms| - 1].0, ms[|ms| - 1].1)
  }

  /** The last message with a status of the database's own. */
  function LastStored(ms: seq<(Message, int)>): Option<VmStatus> {
    if ms == [] then None
    else if ms[|ms| - 1].0.status.Some? then ms[|ms| - 1].0.status
    else LastStored(ms[..|ms| - 1])
  }

  /** The last id other than 0 that a message other than a deletion carried. */
  function LastVmId(ms: seq<(Message, int)>): Option<int> {
    if ms == [] then None
    else
      var m := ms[|ms| - 1].0;
      if m.status.Some? && m.status != Some(DELETED) && m.oneVmId.Some? && m.oneVmId != Some(0) then m.oneVmId
      else LastVmId(ms[..|ms| - 1])
  }

  /** The time of the last stop since the VM last ran; a deletion counts if nothing had stopped it before. */
  function LastStop(stoppedAt: Option<int>, ms: seq<(Message, int)>): Option<int> {
    if ms == [] then stoppedAt
    else
      var before, (m, now) := LastStop(stoppedAt, ms[..|ms| - 1]), ms[|ms| - 1];
      match m.status
      case Some(RUNNING) => None
      case Some(STOPPED) => Some(now)
      case Some(SUSPENDED) => Some(now)
      case Some(ERROR) => Some(now)
      case Some(DELETED) => if before.None? then Some(now) else before
      case _ => before
  }

  /** The row after messages in turn, field by field, from the messages alone. */
  lemma {:induction false} RowFromMessages(row: VmRow, ms: seq<(Message, int)>)
    ensures var row', status, id := HandledAll(row, ms), LastStored(ms), LastVmId(ms);
            && row'.status == (if status.Some? then status.value else row.status)
            && row'.oneVmId == (if id.Some? then id else row.oneVmId)
            && row'.stoppedAt == LastStop(row.stoppedAt, ms)
            && row'.createdAt == row.createdAt
  {
    if ms != [] { RowFromMessages(row, ms[..|ms| - 1]); }
  }

  /** Messages handled one after the other keep the agreement, and every one that is stored restores it. */
  lemma {:induction false} SequentialConsistent(row: VmRow, ms: seq<(Message, int)>)
    requires Consistent(row) || exists i :: 0 <= i < |ms| && ms[i].0.status.Some?
    ensures Consistent(HandledAll(row, ms))
  {
    if ms != [] {
      var init, last := ms[..|ms| - 1], ms[|ms| - 1];
      if last.0.status.None? {
        if !Consistent(row) {
          var i :| 0 <= i < |ms| && ms[i].0.status.Some?;
          assert init[i] == ms[i];
        }
        SequentialConsistent(row, init);
      }
    }
  }

  /** The worker's own write leaves a row that agrees only in these cases; its message then repairs the others. */
  lemma {:induction false} WorkerWrite(row: VmRow, status: VmStatus, oneVmId: Option<int>, now: int, m: Message, later: int)
    requires m.status == Some(status)
    ensures Consistent(UpdateVmStatus(row, status, oneVmId, now)) <==>
            match status
            case PENDING => true
            case STOPPED => true
            case RUNNING => row.stoppedAt.None?
            case _ => row.stoppedAt.Some?
    ensures Consistent(DeleteVmRecord(row, now))
    ensures Consistent(Handled(UpdateVmStatus(row, status, oneVmId, now), m, later))
  {}

  // ---------------------------------------------------------------- billed time

  /** The length of `[x, y)` inside the cycle `[from, to)`. */
  function Overlap(x: int, y: int, from: int, to: int): int { Max(0, Min(y, to) - Max(x, from)) }

  /** Deleting a VM that is stopped changes its bill in no cycle. */
  lemma {:induction false} DeletionKeepsBill(row: VmRow, m: Message, now: int, from: int, to: int)
    requires Consistent(row) && (StopsVm(row.status) || row.status == DELETED) && m.status == Some(DELETED)
    ensures Billed(Handled(row, m, now), from, to) == Billed(row, from, to)
    ensures Billed(DeleteVmRecord(row, now), from, to) == Billed(row, from, to)
  {}

  /** Stopping or deleting a running VM freezes its bill at that moment. */
  lemma {:induction false} StopFreezesBill(row: VmRow, m: Message, now: int, from: int, to: int)
    requires row.status == RUNNING && Consistent(row)
    requires m.status.Some? && (StopsVm(m.status.value) || m.status.value == DELETED)
    ensures Billed(Handled(row, m, now), from, to) == Billed(row, from, Min(to, now))
  {}

  /** Stopping a VM again that is stopped, or even deleted, bills the time in between, and starting it again bills all of it since. */
  lemma {:induction false} GapIsBilled(row: VmRow, m: Message, now: int, from: int, to: int)
    requires row.status != RUNNING && row.stoppedAt.Some? && row.createdAt <= row.stoppedAt.value <= now && from <= to
    requires m.status.Some? && (StopsVm(m.status.value) || m.status.value == RUNNING)
    ensures var end := if m.status.value == RUNNING then to else now;
            Billed(Handled(row, m, now), from, to) == Billed(row, from, to) + Overlap(row.stoppedAt.value, end, from, to)
  {}
}
