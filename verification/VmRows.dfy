/** The rows of `virtual_machines`, and what the worker's database module does to one. */
module VmRows {
  import opened Outcomes

  datatype VmStatus = PENDING | RUNNING | STOPPED | SUSPENDED | ERROR | DELETED

  datatype VmRow = VmRow(status: VmStatus, createdAt: int, stoppedAt: Option<int>, oneVmId: Option<int>)

  /** `COALESCE("stoppedAt", NOW())` */
  function Coalesce(stoppedAt: Option<int>, now: int): Option<int> {
    if stoppedAt.Some? then stoppedAt else Some(now)
  }

  /** `update_vm_status` */
  function UpdateVmStatus(row: VmRow, status: VmStatus, oneVmId: Option<int>, now: int): VmRow {
    row.(status := status,
         oneVmId := if oneVmId.Some? then oneVmId else row.oneVmId,
         stoppedAt := if status == STOPPED then Coalesce(row.stoppedAt, now) else row.stoppedAt)
  }

  /** `delete_vm_record` */
  function DeleteVmRecord(row: VmRow, now: int): VmRow {
    row.(status := DELETED, stoppedAt := Coalesce(row.stoppedAt, now))
  }
}
