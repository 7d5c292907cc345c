/** The worker's sync pass: database statuses converge to what OpenNebula reports. */
module Reconcile {
  import opened Outcomes
  import opened VmRows
  import opened VmStatusUpdates

  /** OpenNebula's answer for a VM id; an id it does not know, or cannot answer for, is absent. */
  datatype Info = Info(state: Option<int>, lcmState: Option<int>)

  type Cloud = map<int, Info>

  type Rows = map<string, VmRow>

  datatype Active = Active(vmId: string, oneVmId: int, dbStatus: VmStatus)

  predicate IsActive(row: VmRow) { row.status != DELETED && row.oneVmId.Some? }

  /** The status a state stands for; other states say nothing. */
  function Mapped(i: Info): Option<VmStatus> {
    if i.state.None? || i.lcmState.None? then None
    else if i.state.value == 3 && i.lcmState.value == 3 then Some(RUNNING)
    else if i.state.value == 4 || i.state.value == 8 then Some(STOPPED)
    else if i.state.value == 6 then Some(DELETED)
    else None
  }

  function Real(cloud: Cloud, oneVmId: int): Option<VmStatus> {
    if oneVmId in cloud then Mapped(cloud[oneVmId]) else None
  }

  /** The active rows whose status OpenNebula contradicts. */
  predicate Mismatched(cloud: Cloud, row: VmRow) {
    IsActive(row) && Real(cloud, row.oneVmId.value).Some? && Real(cloud, row.oneVmId.value).value != row.status
  }

  function Mismatches(cloud: Cloud, rows: Rows): set<string> {
    set id | id in rows && Mismatched(cloud, rows[id])
  }

  /** The row after the pass; `now` is when its update runs. */
  function SyncedRow(cloud: Cloud, row: VmRow, now: int): VmRow {
    if Mismatched(cloud, row) then UpdateVmStatus(row, Real(cloud, row.oneVmId.value).value, None, now) else row
  }

  /** The rows after a pass in which the update of `id` runs at `clock(id)`. */
  function Synced(cloud: Cloud, rows: Rows, clock: string -> int): Rows {
    map id | id in rows :: SyncedRow(cloud, rows[id], clock(id))
  }

  function Ids(vms: seq<Active>): set<string> { set v | v in vms :: v.vmId }

  lemma {:induction false} IdsSnoc(vms: seq<Active>, v: Active)
    ensures Ids(vms + [v]) == Ids(vms) + {v.vmId}
  {
    forall id | id in Ids(vms) + {v.vmId} ensures id in Ids(vms + [v]) {
      if id == v.vmId {
        assert (vms + [v])[|vms|] == v;
        assert v in vms + [v];
      } else {
        var w :| w in vms && w.vmId == id;
        assert w in vms + [v];
      }
    }
  }

  predicate Reads(rows: Rows, v: Active) {
    v.vmId in rows && IsActive(rows[v.vmId]) && v.oneVmId == rows[v.vmId].oneVmId.value && v.dbStatus == rows[v.vmId].status
  }

  predicate Listed(rows: Rows, vms: seq<Active>) {
    && (forall i :: 0 <= i < |vms| ==> Reads(rows, vms[i]))
    && (forall i, j :: 0 <= i < j < |vms| ==> vms[i].vmId != vms[j].vmId)
  }

  lemma {:induction false} ListedPrefix(rows: Rows, vms: seq<Active>, i: nat)
    requires Listed(rows, vms) && i < |vms|
    ensures vms[i].vmId !in Ids(vms[..i]) && Ids(vms[..i + 1]) == Ids(vms[..i]) + {vms[i].vmId}
  {
    assert vms[..i + 1] == vms[..i] + [vms[i]];
    IdsSnoc(vms[..i], vms[i]);
  }

  /** The rows when those in `done` have been visited. */
  function SyncedPart(cloud: Cloud, rows: Rows, clock: string -> int, done: set<string>): Rows {
    map id | id in rows :: if id in done then SyncedRow(cloud, rows[id], clock(id)) else rows[id]
  }

  /** The corrections among them. */
  function Fixes(cloud: Cloud, rows: Rows, done: set<string>): map<string, VmStatus> {
    map id | id in rows && id in done && Mismatched(cloud, rows[id]) :: Real(cloud, rows[id].oneVmId.value).value
  }

  lemma {:induction false} OneMore(cloud: Cloud, rows: Rows, clock: string -> int, done: set<string>, id: string)
    requires id in rows && id !in done
    ensures var part := SyncedPart(cloud, rows, clock, done);
            && id in part && part[id] == rows[id]
            && SyncedPart(cloud, rows, clock, done + {id}) == part[id := SyncedRow(cloud, rows[id], clock(id))]
    ensures var fixes := Fixes(cloud, rows, done);
            && id !in fixes
            && Fixes(cloud, rows, done + {id}) ==
               if Mismatched(cloud, rows[id]) then fixes[id := Real(cloud, rows[id].oneVmId.value).value] else fixes
  {}

  lemma {:induction false} AllActive(cloud: Cloud, rows: Rows, clock: string -> int, done: set<string>)
    requires done == set id | id in rows && IsActive(rows[id])
    ensures SyncedPart(cloud, rows, clock, done) == Synced(cloud, rows, clock)
    ensures Fixes(cloud, rows, done) == Fixes(cloud, rows, Mismatches(cloud, rows))
    ensures |Fixes(cloud, rows, done)| == |Mismatches(cloud, rows)|
  {
    assert Fixes(cloud, rows, done).Keys == Mismatches(cloud, rows);
    assert |Fixes(cloud, rows, done)| == |Fixes(cloud, rows, done).Keys|;
  }

  lemma {:induction false} NoneYet(cloud: Cloud, rows: Rows, clock: string -> int)
    ensures SyncedPart(cloud, rows, clock, {}) == rows && Fixes(cloud, rows, {}) == map[]
  {}

  class SyncWorker {
    var rows: Rows
    var templateCache: Option<seq<string>>

    constructor (rows: Rows, templateCache: Option<seq<string>>)
      ensures this.rows == rows && this.templateCache == templateCache
    {
      this.rows, this.templateCache := rows, templateCache;
    }

    /** The active rows, in whatever order the database returns them. */
    method GetAllActiveVms() returns (vms: seq<Active>)
      ensures Listed(rows, vms) && Ids(vms) == set id | id in rows && IsActive(rows[id])
    {
      vms := [];
      var left := rows.Keys;
      while left != {}
        invariant left <= rows.Keys && Listed(rows, vms)
        invariant Ids(vms) == set id | id in rows.Keys - left && IsActive(rows[id])
        decreases left
      {
        var id :| id in left;
        if IsActive(rows[id]) {
          var v := Active(id, rows[id].oneVmId.value, rows[id].status);
          assert forall i :: 0 <= i < |vms| ==> vms[i] in vms && vms[i].vmId in Ids(vms);
          IdsSnoc(vms, v);
          vms := vms + [v];
        }
        left := left - {id};
      }
    }

    /** One row of the pass: what OpenNebula contradicts is written. */
    method SyncVm(vm: Active, cloud: Cloud, now: int) returns (fix: Option<VmStatus>)
      requires Reads(rows, vm)
      modifies this`rows
      ensures rows == old(rows)[vm.vmId := SyncedRow(cloud, old(rows)[vm.vmId], now)]
      ensures fix == if Mismatched(cloud, old(rows)[vm.vmId]) then Real(cloud, vm.oneVmId) else None
    {
      fix := None;
      assert rows == rows[vm.vmId := rows[vm.vmId]];
      if vm.oneVmId !in cloud {
        return;
      }
      var one := cloud[vm.oneVmId];
      if one.state.None? || one.lcmState.None? {
        return;
      }
      var realStatus;
      if one.state.value == 3 && one.lcmState.value == 3 {
        realStatus := RUNNING;
      } else if one.state.value == 4 || one.state.value == 8 {
        realStatus := STOPPED;
      } else if one.state.value == 6 {
        realStatus := DELETED;
      } else {
        return;
      }
      if realStatus != vm.dbStatus {
        rows := rows[vm.vmId := UpdateVmStatus(rows[vm.vmId], realStatus, None, now)];
        fix := Some(realStatus);
      }
    }

    /**
      One pass against an OpenNebula that does not change: `fixed` counts the rows it corrected and
      `published` holds the status messages it sent for them.
    */
    method SyncAllVmStates(cloud: Cloud, clock: string -> int) returns (fixed: nat, published: map<string, VmStatus>)
      modifies this`rows
      ensures templateCache.None? ==> rows == old(rows) && fixed == 0 && published == map[]
      ensures templateCache.Some? ==>
                && rows == Synced(cloud, old(rows), clock)
                && fixed == |Mismatches(cloud, old(rows))|
                && published == Fixes(cloud, old(rows), Mismatches(cloud, old(rows)))
    {
      fixed, published := 0, map[];
      if templateCache.None? {
        return;
      }
      var vms := GetAllActiveVms();
      fixed, published := SyncEach(vms, cloud, clock);
      AllActive(cloud, old(rows), clock, Ids(vms));
    }

    method SyncEach(vms: seq<Active>, cloud: Cloud, clock: string -> int) returns (fixed: nat, published: map<string, VmStatus>)
      requires Listed(rows, vms)
      modifies this`rows
      ensures rows == SyncedPart(cloud, old(rows), clock, Ids(vms))
      ensures published == Fixes(cloud, old(rows), Ids(vms)) && fixed == |published|
    {
      fixed, published := 0, map[];
      NoneYet(cloud, rows, clock);
      ghost var done := {};
      for i := 0 to |vms|
        invariant done == Ids(vms[..i])
        invariant rows == SyncedPart(cloud, old(rows), clock, done)
        invariant published == Fixes(cloud, old(rows), done) && fixed == |published|
      {
        ListedPrefix(old(rows), vms, i);
        OneMore(cloud, old(rows), clock, done, vms[i].vmId);
        done := done + {vms[i].vmId};
        var fix := SyncVm(vms[i], cloud, clock(vms[i].vmId));
        if fix.Some? {
          published := published[vms[i].vmId := fix.value];
          fixed := fixed + 1;
        }
      }
      assert vms[..|vms|] == vms;
    }
  }

  // ---------------------------------------------------------------- what a pass achieves

  /** Active rows get the status of their mapped state, all other rows stay, and a second pass finds nothing. */
  lemma {:induction false} PassConverges(cloud: Cloud, rows: Rows, clock: string -> int, later: string -> int, id: string)
    requires id in rows
    ensures var row, row' := rows[id], Synced(cloud, rows, clock)[id];
            && (IsActive(row) && Real(cloud, row.oneVmId.value).Some? ==> row'.status == Real(cloud, row.oneVmId.value).value)
            && (!IsActive(row) || Real(cloud, row.oneVmId.value).None? ==> row' == row)
            && row'.oneVmId == row.oneVmId && row'.createdAt == row.createdAt
            && (row'.stoppedAt != row.stoppedAt ==> row'.status == STOPPED && row.stoppedAt.None?)
    ensures Mismatches(cloud, Synced(cloud, rows, clock)) == {}
    ensures Synced(cloud, Synced(cloud, rows, clock), later) == Synced(cloud, rows, clock)
  {}

  /**
    The pass, by OpenNebula's numbers: state 3 with LCM state 3 is RUNNING, states 4 and 8 are STOPPED and
    state 6 is DELETED; every other answer, or none, leaves the row as it is, and so does a row that is
    deleted or has no id.
  */
  lemma {:induction false} PassByState(cloud: Cloud, rows: Rows, clock: string -> int, id: string)
    requires id in rows
    ensures var row, row' := rows[id], Synced(cloud, rows, clock)[id];
            if row.status == DELETED || row.oneVmId.None? || row.oneVmId.value !in cloud then row' == row
            else if cloud[row.oneVmId.value].state.None? || cloud[row.oneVmId.value].lcmState.None? then row' == row
            else
              var one := row.oneVmId.value;
              var state, lcm := cloud[one].state.value, cloud[one].lcmState.value;
              if state == 3 && lcm == 3 then row' == row.(status := RUNNING)
              else if state == 4 || state == 8 then
                row' == row.(status := STOPPED, stoppedAt := if row.stoppedAt.None? && row.status != STOPPED then Some(clock(id)) else row.stoppedAt)
              else if state == 6 then row' == row.(status := DELETED)
              else row' == row
  {}

  /** What is counted and sent: the rows whose status changes, with their new one. */
  lemma {:induction false} FixesAreChanges(cloud: Cloud, rows: Rows, clock: string -> int, id: string)
    ensures var fixes := Fixes(cloud, rows, Mismatches(cloud, rows));
            && (id in fixes <==> id in rows && Synced(cloud, rows, clock)[id].status != rows[id].status)
            && (id in fixes ==> fixes[id] == Synced(cloud, rows, clock)[id].status)
            && fixes.Keys == Mismatches(cloud, rows)
  {}

  /** The status message sent for a corrected row, once handled, makes its `stoppedAt` agree and keeps its status. */
  lemma {:induction false} MessagesRestore(cloud: Cloud, row: VmRow, now: int, later: int)
    requires Mismatched(cloud, row)
    ensures var m := Message(Real(cloud, row.oneVmId.value), None);
            var row' := Handled(SyncedRow(cloud, row, now), m, later);
            Consistent(row') && row'.status == Real(cloud, row.oneVmId.value).value && !Mismatched(cloud, row')
  {}
}
