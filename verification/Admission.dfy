/** VM admission: quota checks in a transaction under a per-user advisory lock, for any number of requests. */
module Admission {
  import opened Outcomes
  import opened VmRows

  /** Numbers of VMs, CPUs, megabytes of memory and gigabytes of disk. */
  datatype Amounts = Amounts(vms: int, cpu: int, ram: int, disk: int)

  datatype Demand = Demand(cpu: nat, ram: nat, disk: nat)

  /** A row of `virtual_machines`, as far as quotas see it. */
  datatype Row = Row(user: string, status: VmStatus, size: Demand)

  /** What the user service says of a user. */
  datatype Remote = Remote(active: bool, quota: Option<Amounts>)

  const Nothing := Amounts(0, 0, 0, 0)

  /** `Number.MAX_SAFE_INTEGER` for every amount. */
  const Unlimited := Amounts(0x1F_FFFF_FFFF_FFFF, 0x1F_FFFF_FFFF_FFFF, 0x1F_FFFF_FFFF_FFFF, 0x1F_FFFF_FFFF_FFFF)

  predicate AtMost(a: Amounts, b: Amounts) { a.vms <= b.vms && a.cpu <= b.cpu && a.ram <= b.ram && a.disk <= b.disk }

  function Plus(a: Amounts, d: Demand): Amounts { Amounts(a.vms + 1, a.cpu + d.cpu, a.ram + d.ram, a.disk + d.disk) }

  /** What the user's VMs that are not deleted add up to. */
  function Used(rows: seq<Row>, user: string): Amounts {
    if rows == [] then Nothing
    else
      var before, r := Used(rows[..|rows| - 1], user), rows[|rows| - 1];
      if r.user == user && r.status != DELETED then Plus(before, r.size) else before
  }

  /** The limits a transaction checks against. */
  function LimitsFor(admin: bool, remote: Remote, stored: Option<Amounts>): Amounts {
    if admin then Unlimited
    else if remote.quota.Some? then remote.quota.value
    else if stored.Some? then stored.value else Nothing
  }

  function Stored(quotas: map<string, Amounts>, user: string): Option<Amounts> {
    if user in quotas then Some(quotas[user]) else None
  }

  function Upserted(quotas: map<string, Amounts>, user: string, upsert: Option<Amounts>): map<string, Amounts> {
    if upsert.Some? then quotas[user := upsert.value] else quotas
  }

  // ---------------------------------------------------------------- one request on its own

  datatype Answer = Created(limits: Amounts) | NoSubscription | VmQuotaExceeded | CpuQuotaExceeded | RamQuotaExceeded | DiskQuotaExceeded

  function Check(used: Amounts, d: Demand, limits: Amounts): Answer {
    if used.vms >= limits.vms then VmQuotaExceeded else CheckSizes(used, d, limits)
  }

  function CheckSizes(used: Amounts, d: Demand, limits: Amounts): Answer {
    if used.cpu + d.cpu > limits.cpu then CpuQuotaExceeded
    else if used.ram + d.ram > limits.ram then RamQuotaExceeded
    else if used.disk + d.disk > limits.disk then DiskQuotaExceeded
    else Created(limits)
  }

  /** The limits are the largest exact integer four times over for an administrator, the remote quota, the stored one, or zero. */
  lemma {:induction false} LimitsAre(admin: bool, remote: Remote, stored: Option<Amounts>)
    ensures admin ==>
              var most := 9_007_199_254_740_991; LimitsFor(admin, remote, stored) == Amounts(most, most, most, most)
    ensures !admin && remote.quota.Some? ==> Some(LimitsFor(admin, remote, stored)) == remote.quota
    ensures !admin && remote.quota.None? && stored.Some? ==> Some(LimitsFor(admin, remote, stored)) == stored
    ensures !admin && remote.quota.None? && stored.None? ==> LimitsFor(admin, remote, stored) == Amounts(0, 0, 0, 0)
  {}

  /**
    What an answer says: created exactly if one more VM of this size fits every limit, and otherwise the
    first amount, in the order VMs, CPU, RAM, disk, that does not fit.
  */
  predicate Answers(r: Answer, used: Amounts, d: Demand, admin: bool, remote: Remote, stored: Option<Amounts>) {
    var limits := LimitsFor(admin, remote, stored);
    var subscribed := admin || remote.active;
    var vms, cpu := used.vms + 1 <= limits.vms, used.cpu + d.cpu <= limits.cpu;
    var ram, disk := used.ram + d.ram <= limits.ram, used.disk + d.disk <= limits.disk;
    && (r == NoSubscription <==> !subscribed)
    && (r == VmQuotaExceeded <==> subscribed && !vms)
    && (r == CpuQuotaExceeded <==> subscribed && vms && !cpu)
    && (r == RamQuotaExceeded <==> subscribed && vms && cpu && !ram)
    && (r == DiskQuotaExceeded <==> subscribed && vms && cpu && ram && !disk)
    && (r == Created(limits) <==> subscribed && vms && cpu && ram && disk)
    && (r.Created? ==> r.limits == limits)
  }

  lemma {:induction false} AnswerMeans(used: Amounts, d: Demand, admin: bool, remote: Remote, stored: Option<Amounts>)
    ensures Answers(if !admin && !remote.active then NoSubscription else Check(used, d, LimitsFor(admin, remote, stored)),
                    used, d, admin, remote, stored)
  {}

  class VmService {
    var userQuotas: map<string, Amounts>
    var virtualMachines: seq<Row>

    constructor ()
      ensures userQuotas == map[] && virtualMachines == []
    {
      userQuotas, virtualMachines := map[], [];
    }

    method CountActive(user: string) returns (n: int)
      ensures n == Used(virtualMachines, user).vms
    {
      n := 0;
      for i := 0 to |virtualMachines|
        invariant n == Used(virtualMachines[..i], user).vms
      {
        assert virtualMachines[..i + 1][..i] == virtualMachines[..i];
        if virtualMachines[i].user == user && virtualMachines[i].status != DELETED {
          n := n + 1;
        }
      }
      assert virtualMachines[..|virtualMachines|] == virtualMachines;
    }

    method SumSizes(user: string) returns (cpu: int, ram: int, disk: int)
      ensures var used := Used(virtualMachines, user); cpu == used.cpu && ram == used.ram && disk == used.disk
    {
      cpu, ram, disk := 0, 0, 0;
      for i := 0 to |virtualMachines|
        invariant var used := Used(virtualMachines[..i], user); cpu == used.cpu && ram == used.ram && disk == used.disk
      {
        assert virtualMachines[..i + 1][..i] == virtualMachines[..i];
        var r := virtualMachines[i];
        if r.user == user && r.status != DELETED {
          cpu, ram, disk := cpu + r.size.cpu, ram + r.size.ram, disk + r.size.disk;
        }
      }
      assert virtualMachines[..|virtualMachines|] == virtualMachines;
    }

    /**
      The transaction of `createVm`, alone: a VM is added exactly when the user's totals with it stay
      within the limits, and then the stored quota is the one that was checked.
    */
    method CreateVm(user: string, admin: bool, remote: Remote, d: Demand) returns (r: Answer)
      modifies this
      ensures r == if !admin && !remote.active then NoSubscription
                   else Check(Used(old(virtualMachines), user), d, LimitsFor(admin, remote, Stored(old(userQuotas), user)))
      ensures Answers(r, Used(old(virtualMachines), user), d, admin, remote,
                      if user in old(userQuotas) then Some(old(userQuotas)[user]) else None)
      ensures r.Created? <==> virtualMachines == old(virtualMachines) + [Row(user, PENDING, d)]
      ensures !r.Created? ==> virtualMachines == old(virtualMachines) && userQuotas == old(userQuotas)
      ensures r.Created? ==>
                userQuotas == if !admin && remote.quota.Some? then old(userQuotas)[user := remote.quota.value] else old(userQuotas)
    {
      AnswerMeans(Used(virtualMachines, user), d, admin, remote, Stored(userQuotas, user));
      if !admin && !remote.active {
        return NoSubscription;
      }
      var quota := if user in userQuotas then Some(userQuotas[user]) else None;
      var upserted := userQuotas;
      if !admin && remote.quota.Some? {
        upserted := upserted[user := remote.quota.value];
        quota := remote.quota;
      }
      var limits := if admin then Unlimited else if quota.Some? then quota.value else Nothing;
      var activeVms := CountActive(user);
      if activeVms >= limits.vms {
        return VmQuotaExceeded;
      }
      var cpu, ram, disk := SumSizes(user);
      if cpu + d.cpu > limits.cpu {
        return CpuQuotaExceeded;
      }
      if ram + d.ram > limits.ram {
        return RamQuotaExceeded;
      }
      if disk + d.disk > limits.disk {
        return DiskQuotaExceeded;
      }
      userQuotas := upserted;
      virtualMachines := virtualMachines + [Row(user, PENDING, d)];
      r := Created(limits);
    }
  }

  // ---------------------------------------------------------------- interleaved requests

  /** How users map to locks, and who is an administrator. */
  datatype World = World(hash: string -> int, admin: string -> bool)

  datatype Phase =
    | Begun
    | Ready(remote: Remote)
    | Holding(limits: Amounts, upsert: Option<Amounts>)
    | Counted(limits: Amounts, upsert: Option<Amounts>)
    | Checked(limits: Amounts, upsert: Option<Amounts>)
    | Ended(answer: Option<Answer>)

  datatype Request = Request(user: string, demand: Demand, phase: Phase)

  datatype State = State(rows: seq<Row>, quotas: map<string, Amounts>, remotes: map<string, Remote>,
                         locks: map<int, int>, requests: map<int, Request>)

  const Initial := State([], map[], map[], map[], map[])

  datatype Event =
    | Begin(id: int, user: string, demand: Demand)
    | Fetch(id: int)
    | Acquire(id: int)
    | CountVms(id: int)
    | Aggregate(id: int)
    | Commit(id: int)
    | Fail(id: int)
    | SetStatus(row: nat, status: VmStatus)
    | SetRemote(user: string, remote: Remote)

  function RemoteOf(s: State, user: string): Remote {
    if user in s.remotes then s.remotes[user] else Remote(false, None)
  }

  predicate InTransaction(p: Phase) { p.Holding? || p.Counted? || p.Checked? }

  function PhaseOf(s: State, id: int): Phase {
    if id in s.requests then s.requests[id].phase else Ended(None)
  }

  function Move(s: State, id: int, p: Phase): State
    requires id in s.requests
  {
    s.(requests := s.requests[id := s.requests[id].(phase := p)])
  }

  /** The end of a transaction: its lock is released with it. */
  function End(w: World, s: State, id: int, answer: Option<Answer>): State
    requires id in s.requests
  {
    Move(s.(locks := s.locks - {w.hash(s.requests[id].user)}), id, Ended(answer))
  }

  function DoFetch(w: World, s: State, id: int): State
    requires id in s.requests
  {
    var r := s.requests[id];
    if w.admin(r.user) || RemoteOf(s, r.user).active then Move(s, id, Ready(RemoteOf(s, r.user)))
    else Move(s, id, Ended(Some(NoSubscription)))
  }

  function DoAcquire(w: World, s: State, id: int): State
    requires id in s.requests && s.requests[id].phase.Ready?
  {
    var r := s.requests[id];
    var remote := r.phase.remote;
    if w.hash(r.user) in s.locks then s
    else
      Move(s.(locks := s.locks[w.hash(r.user) := id]), id,
           Holding(LimitsFor(w.admin(r.user), remote, Stored(s.quotas, r.user)),
                   if w.admin(r.user) then None else remote.quota))
  }

  function DoCount(w: World, s: State, id: int): State
    requires id in s.requests && s.requests[id].phase.Holding?
  {
    var Request(user, d, Holding(limits, upsert)) := s.requests[id];
    if Used(s.rows, user).vms >= limits.vms then End(w, s, id, Some(VmQuotaExceeded))
    else Move(s, id, Counted(limits, upsert))
  }

  function DoAggregate(w: World, s: State, id: int): State
    requires id in s.requests && s.requests[id].phase.Counted?
  {
    var Request(user, d, Counted(limits, upsert)) := s.requests[id];
    var answer := CheckSizes(Used(s.rows, user), d, limits);
    if answer.Created? then Move(s, id, Checked(limits, upsert)) else End(w, s, id, Some(answer))
  }

  /** Only a commit makes the new row and the stored quota visible to others. */
  function DoCommit(w: World, s: State, id: int): State
    requires id in s.requests && s.requests[id].phase.Checked?
  {
    var Request(user, d, Checked(limits, upsert)) := s.requests[id];
    End(w, s.(rows := s.rows + [Row(user, PENDING, d)], quotas := Upserted(s.quotas, user, upsert)), id, Some(Created(limits)))
  }

  /** One step; an event that is not possible in the state, such as taking a lock that is held, changes nothing. */
  function Step(w: World, s: State, e: Event): State {
    match e
    case Begin(id, user, demand) =>
      if id in s.requests then s else s.(requests := s.requests[id := Request(user, demand, Begun)])
    case Fetch(id) => if PhaseOf(s, id).Begun? then DoFetch(w, s, id) else s
    case Acquire(id) => if PhaseOf(s, id).Ready? then DoAcquire(w, s, id) else s
    case CountVms(id) => if PhaseOf(s, id).Holding? then DoCount(w, s, id) else s
    case Aggregate(id) => if PhaseOf(s, id).Counted? then DoAggregate(w, s, id) else s
    case Commit(id) => if PhaseOf(s, id).Checked? then DoCommit(w, s, id) else s
    case Fail(id) =>
      if InTransaction(PhaseOf(s, id)) then End(w, s, id, None)
      else if PhaseOf(s, id).Begun? || PhaseOf(s, id).Ready? then Move(s, id, Ended(None)) else s
    case SetStatus(i, status) => if i < |s.rows| then s.(rows := s.rows[i := s.rows[i].(status := status)]) else s
    case SetRemote(user, remote) => s.(remotes := s.remotes[user := remote])
  }

  function After(w: World, run: seq<Event>): State {
    if run == [] then Initial else Step(w, After(w, run[..|run| - 1]), run[|run| - 1])
  }

  /** The event brings a deleted VM back. */
  predicate Revives(s: State, e: Event) {
    e.SetStatus? && e.row < |s.rows| && s.rows[e.row].status == DELETED && e.status != DELETED
  }

  predicate NoRevival(w: World, run: seq<Event>) {
    run == [] || (NoRevival(w, run[..|run| - 1]) && !Revives(After(w, run[..|run| - 1]), run[|run| - 1]))
  }

  // ---------------------------------------------------------------- what a transaction knows

  lemma {:induction false} UsedSnoc(rows: seq<Row>, r: Row, user: string)
    ensures Used(rows + [r], user) == if r.user == user && r.status != DELETED then Plus(Used(rows, user), r.size) else Used(rows, user)
  {
    assert (rows + [r])[..|rows|] == rows;
  }

  function Add(a: Amounts, b: Amounts): Amounts {
    Amounts(a.vms + b.vms, a.cpu + b.cpu, a.ram + b.ram, a.disk + b.disk)
  }

  /** What a status change of one row does to a user's totals: a deletion frees its size, a revival takes it again. */
  function Change(row: Row, status: VmStatus, user: string): Amounts {
    if row.user != user || (row.status == DELETED) == (status == DELETED) then Nothing
    else if status == DELETED then Amounts(-1, 0 - row.size.cpu, 0 - row.size.ram, 0 - row.size.disk)
    else Plus(Nothing, row.size)
  }

  lemma {:induction false} UsedAfterStatus(rows: seq<Row>, i: nat, status: VmStatus, user: string)
    requires i < |rows|
    ensures Used(rows[i := rows[i].(status := status)], user) == Add(Used(rows, user), Change(rows[i], status, user))
  {
    var rows' := rows[i := rows[i].(status := status)];
    if i == |rows| - 1 {
      assert rows'[..i] == rows[..i];
    } else {
      assert rows'[..|rows| - 1] == rows[..|rows| - 1][i := rows[i].(status := status)];
      UsedAfterStatus(rows[..|rows| - 1], i, status, user);
    }
  }

  // ---------------------------------------------------------------- the lock

  /** A transaction holds its user's lock, and a lock is held by a transaction of such a user. */
  ghost predicate LockInv(w: World, s: State) {
    && (forall id :: id in s.requests && InTransaction(s.requests[id].phase) ==>
          w.hash(s.requests[id].user) in s.locks && s.locks[w.hash(s.requests[id].user)] == id)
    && (forall k :: k in s.locks ==>
          s.locks[k] in s.requests && InTransaction(s.requests[s.locks[k]].phase) && w.hash(s.requests[s.locks[k]].user) == k)
  }

  /** A request that changes its phase and nothing else, inside or outside its transaction. */
  lemma {:induction false} MoveKeepsLocks(w: World, s: State, id: int, p: Phase)
    requires LockInv(w, s) && id in s.requests && InTransaction(p) == InTransaction(s.requests[id].phase)
    ensures LockInv(w, Move(s, id, p))
  {}

  lemma {:induction false} EndKeepsLocks(w: World, s: State, id: int, answer: Option<Answer>)
    requires LockInv(w, s) && id in s.requests && InTransaction(s.requests[id].phase)
    ensures LockInv(w, End(w, s, id, answer))
  {}

  lemma {:induction false} AcquireKeepsLocks(w: World, s: State, id: int)
    requires LockInv(w, s) && id in s.requests && s.requests[id].phase.Ready?
    ensures LockInv(w, DoAcquire(w, s, id))
  {}

  lemma {:induction false} StepKeepsLocks(w: World, s: State, e: Event)
    requires LockInv(w, s)
    ensures LockInv(w, Step(w, s, e))
  {
    match e
    case Begin(id, user, demand) =>
    case Fetch(id) =>
      if PhaseOf(s, id).Begun? { MoveKeepsLocks(w, s, id, DoFetch(w, s, id).requests[id].phase); }
    case Acquire(id) => if PhaseOf(s, id).Ready? { AcquireKeepsLocks(w, s, id); }
    case CountVms(id) =>
      if PhaseOf(s, id).Holding? {
        MoveKeepsLocks(w, s, id, Counted(s.requests[id].phase.limits, s.requests[id].phase.upsert));
        EndKeepsLocks(w, s, id, Some(VmQuotaExceeded));
      }
    case Aggregate(id) =>
      if PhaseOf(s, id).Counted? {
        var r := s.requests[id];
        MoveKeepsLocks(w, s, id, Checked(r.phase.limits, r.phase.upsert));
        EndKeepsLocks(w, s, id, Some(CheckSizes(Used(s.rows, r.user), r.demand, r.phase.limits)));
      }
    case Commit(id) =>
      if PhaseOf(s, id).Checked? { EndKeepsLocks(w, s, id, Some(Created(s.requests[id].phase.limits))); }
    case Fail(id) =>
      if InTransaction(PhaseOf(s, id)) {
        EndKeepsLocks(w, s, id, None);
      } else if PhaseOf(s, id).Begun? || PhaseOf(s, id).Ready? {
        MoveKeepsLocks(w, s, id, Ended(None));
      }
    case SetStatus(i, status) =>
    case SetRemote(user, remote) =>
  }

  lemma {:induction false} RunKeepsLocks(w: World, run: seq<Event>)
    ensures LockInv(w, After(w, run))
  {
    if run != [] {
      RunKeepsLocks(w, run[..|run| - 1]);
      StepKeepsLocks(w, After(w, run[..|run| - 1]), run[|run| - 1]);
    }
  }

  /** At no time are two requests with the same lock, and so of the same user, inside the transaction. */
  lemma {:induction false} MutualExclusion(w: World, run: seq<Event>, a: int, b: int)
    requires var rs := After(w, run).requests; a in rs && b in rs && w.hash(rs[a].user) == w.hash(rs[b].user)
    requires InTransaction(PhaseOf(After(w, run), a)) && InTransaction(PhaseOf(After(w, run), b))
    ensures a == b
  {
    RunKeepsLocks(w, run);
  }

  // ---------------------------------------------------------------- one request among others

  predicate Counts(s: State, e: Event, id: int) { e == CountVms(id) && PhaseOf(s, id).Holding? }

  predicate Aggregates(s: State, e: Event, id: int) { e == Aggregate(id) && PhaseOf(s, id).Counted? }

  function NextRead(s: State, e: Event, id: int, read: Amounts): Amounts {
    if Counts(s, e, id) then Nothing.(vms := Used(s.rows, s.requests[id].user).vms)
    else if Aggregates(s, e, id) then Used(s.rows, s.requests[id].user).(vms := read.vms)
    else read
  }

  /** What the request has read of its user's totals: the count when it counted, the sums when it summed. */
  function Read(w: World, run: seq<Event>, id: int): Amounts {
    if run == [] then Nothing
    else NextRead(After(w, run[..|run| - 1]), run[|run| - 1], id, Read(w, run[..|run| - 1], id))
  }

  function NextDrift(s: State, e: Event, id: int, drift: Amounts): Amounts {
    if Counts(s, e, id) then Nothing
    else if Aggregates(s, e, id) then Nothing.(vms := drift.vms)
    else if e.SetStatus? && e.row < |s.rows| && id in s.requests then
      Add(drift, Change(s.rows[e.row], e.status, s.requests[id].user))
    else drift
  }

  /** What status changes have done to each of those totals since it was read. */
  function Drift(w: World, run: seq<Event>, id: int): Amounts {
    if run == [] then Nothing
    else NextDrift(After(w, run[..|run| - 1]), run[|run| - 1], id, Drift(w, run[..|run| - 1], id))
  }

  /** The totals are what was read and its drift, and what was read passed the checks made so far. */
  ghost predicate Tracks(s: State, r: Request, read: Amounts, drift: Amounts) {
    && (r.phase.Counted? || r.phase.Checked? ==>
          Used(s.rows, r.user).vms == read.vms + drift.vms && read.vms < r.phase.limits.vms)
    && (r.phase.Checked? ==>
          Used(s.rows, r.user) == Add(read, drift) && AtMost(Plus(read, r.demand), r.phase.limits))
  }

  lemma {:induction false} StatusTracks(w: World, s: State, e: Event, id: int, read: Amounts, drift: Amounts)
    requires e.SetStatus? && id in s.requests && Tracks(s, s.requests[id], read, drift)
    ensures var s' := Step(w, s, e); Tracks(s', s'.requests[id], read, NextDrift(s, e, id, drift))
  {
    if e.row < |s.rows| { UsedAfterStatus(s.rows, e.row, e.status, s.requests[id].user); }
  }

  /** Another request that commits is of another user, so its row leaves the totals alone. */
  lemma {:induction false} CommitTracks(w: World, s: State, other: int, id: int, read: Amounts, drift: Amounts)
    requires LockInv(w, s) && id in s.requests && Tracks(s, s.requests[id], read, drift)
    requires PhaseOf(s, other).Checked? && other != id
    ensures Tracks(DoCommit(w, s, other), s.requests[id], read, drift)
  {
    var r := s.requests[other];
    UsedSnoc(s.rows, Row(r.user, PENDING, r.demand), s.requests[id].user);
  }

  /** The request's own steps outside its checks leave it outside `Counted` and `Checked`, or change nothing. */
  lemma {:induction false} OwnStep(w: World, s: State, e: Event, id: int)
    requires id in s.requests && !e.SetStatus? && !e.SetRemote? && e.id == id && !e.CountVms? && !e.Aggregate?
    ensures var s' := Step(w, s, e);
            && id in s'.requests && s'.requests[id].user == s.requests[id].user
            && (s' == s || !(s'.requests[id].phase.Counted? || s'.requests[id].phase.Checked?))
  {}

  lemma {:induction false} CountTracks(w: World, s: State, id: int, read: Amounts, drift: Amounts)
    requires id in s.requests && Tracks(s, s.requests[id], read, drift)
    ensures var s', e := Step(w, s, CountVms(id)), CountVms(id);
            id in s'.requests && Tracks(s', s'.requests[id], NextRead(s, e, id, read), NextDrift(s, e, id, drift))
  {}

  lemma {:induction false} AggregateTracks(w: World, s: State, id: int, read: Amounts, drift: Amounts)
    requires id in s.requests && Tracks(s, s.requests[id], read, drift)
    ensures var s', e := Step(w, s, Aggregate(id)), Aggregate(id);
            id in s'.requests && Tracks(s', s'.requests[id], NextRead(s, e, id, read), NextDrift(s, e, id, drift))
  {}

  /** A step of one request leaves every other as it is, and only a commit adds a row. */
  lemma {:induction false} OtherStep(w: World, s: State, e: Event, id: int)
    requires id in s.requests && !e.SetStatus? && (e.SetRemote? || e.id != id)
    ensures id in Step(w, s, e).requests && Step(w, s, e).requests[id] == s.requests[id]
  {
    if e.CountVms? || e.Aggregate? || e.Commit? { OtherCheck(w, s, e, id); }
  }

  lemma {:induction false} OtherCheck(w: World, s: State, e: Event, id: int)
    requires id in s.requests && (e.CountVms? || e.Aggregate? || e.Commit?) && e.id != id
    ensures id in Step(w, s, e).requests && Step(w, s, e).requests[id] == s.requests[id]
  {}

  lemma {:induction false} OnlyCommitAdds(w: World, s: State, e: Event)
    requires !e.SetStatus? && !(e.Commit? && PhaseOf(s, e.id).Checked?)
    ensures Step(w, s, e).rows == s.rows
  {}

  /** What the step leaves of the request still tracks what it has read. */
  ghost predicate TracksAfter(w: World, s: State, e: Event, id: int, read: Amounts, drift: Amounts) {
    var s' := Step(w, s, e);
    id in s'.requests && Tracks(s', s'.requests[id], NextRead(s, e, id, read), NextDrift(s, e, id, drift))
  }

  lemma {:induction false} OtherTracks(w: World, s: State, e: Event, id: int, read: Amounts, drift: Amounts)
    requires LockInv(w, s) && id in s.requests && Tracks(s, s.requests[id], read, drift)
    requires !e.SetStatus? && (e.SetRemote? || e.id != id)
    ensures TracksAfter(w, s, e, id, read, drift)
  {
    OtherStep(w, s, e, id);
    if e.Commit? && PhaseOf(s, e.id).Checked? {
      CommitTracks(w, s, e.id, id, read, drift);
    } else {
      OnlyCommitAdds(w, s, e);
    }
  }

  lemma {:induction false} OwnTracks(w: World, s: State, e: Event, id: int, read: Amounts, drift: Amounts)
    requires id in s.requests && Tracks(s, s.requests[id], read, drift)
    requires !e.SetStatus? && !e.SetRemote? && e.id == id && !e.CountVms? && !e.Aggregate?
    ensures TracksAfter(w, s, e, id, read, drift)
  {
    OwnStep(w, s, e, id);
  }

  lemma {:induction false} StepTracks(w: World, s: State, e: Event, id: int, read: Amounts, drift: Amounts)
    requires LockInv(w, s) && id in s.requests && Tracks(s, s.requests[id], read, drift)
    ensures TracksAfter(w, s, e, id, read, drift)
  {
    if e.SetStatus? {
      StatusTracks(w, s, e, id, read, drift);
    } else if e.SetRemote? || e.id != id {
      OtherTracks(w, s, e, id, read, drift);
    } else if e.CountVms? {
      CountTracks(w, s, id, read, drift);
    } else if e.Aggregate? {
      AggregateTracks(w, s, id, read, drift);
    } else {
      OwnTracks(w, s, e, id, read, drift);
    }
  }

  lemma {:induction false} NewRequest(w: World, s: State, e: Event, id: int)
    requires id !in s.requests && id in Step(w, s, e).requests
    ensures Step(w, s, e).requests[id].phase.Begun?
  {}

  lemma {:induction false} RunTracks(w: World, run: seq<Event>, id: int)
    requires id in After(w, run).requests
    ensures Tracks(After(w, run), After(w, run).requests[id], Read(w, run, id), Drift(w, run, id))
  {
    var before, e := run[..|run| - 1], run[|run| - 1];
    if id in After(w, before).requests {
      RunKeepsLocks(w, before);
      RunTracks(w, before, id);
      StepTracks(w, After(w, before), e, id, Read(w, before, id), Drift(w, before, id));
    } else {
      NewRequest(w, After(w, before), e, id);
    }
  }

  lemma {:induction false} AfterSnoc(w: World, run: seq<Event>, e: Event)
    ensures After(w, run + [e]) == Step(w, After(w, run), e)
  {
    assert (run + [e])[..|run|] == run;
  }

  /**
    For every run: a create that passed its checks adds exactly its row, changes no other user's totals,
    and leaves its own user within the limits it had read if and only if what it read, the drift since
    then and its demand together fit them.
  */
  lemma {:induction false} AcceptedExactly(w: World, run: seq<Event>, id: int)
    requires PhaseOf(After(w, run), id).Checked?
    ensures var s, s' := After(w, run), After(w, run + [Commit(id)]);
            var r := s.requests[id];
            && PhaseOf(s', id) == Ended(Some(Created(r.phase.limits)))
            && s'.rows == s.rows + [Row(r.user, PENDING, r.demand)]
            && (forall u :: u != r.user ==> Used(s'.rows, u) == Used(s.rows, u))
            && AtMost(Plus(Read(w, run, id), r.demand), r.phase.limits)
            && (AtMost(Used(s'.rows, r.user), r.phase.limits)
                <==> AtMost(Plus(Add(Read(w, run, id), Drift(w, run, id)), r.demand), r.phase.limits))
  {
    AfterSnoc(w, run, Commit(id));
    RunTracks(w, run, id);
    var s := After(w, run);
    var r := s.requests[id];
    forall u ensures u != r.user ==> Used(s.rows + [Row(r.user, PENDING, r.demand)], u) == Used(s.rows, u) {
      UsedSnoc(s.rows, Row(r.user, PENDING, r.demand), u);
    }
    UsedSnoc(s.rows, Row(r.user, PENDING, r.demand), r.user);
  }

  /** The event revives a VM of the request's own user after the request has counted that user's VMs. */
  predicate Disturbs(s: State, e: Event, id: int) {
    && Revives(s, e) && (PhaseOf(s, id).Counted? || PhaseOf(s, id).Checked?)
    && s.rows[e.row].user == s.requests[id].user
  }

  /** A request about to commit has room for its demand. */
  ghost predicate HasRoom(rows: seq<Row>, r: Request) {
    r.phase.Checked? ==> AtMost(Plus(Used(rows, r.user), r.demand), r.phase.limits)
  }

  predicate Undisturbed(w: World, run: seq<Event>, id: int) {
    run == [] || (Undisturbed(w, run[..|run| - 1], id) && !Disturbs(After(w, run[..|run| - 1]), run[|run| - 1], id))
  }

  lemma {:induction false} DriftOnlyDown(w: World, run: seq<Event>, id: int)
    requires Undisturbed(w, run, id)
    ensures PhaseOf(After(w, run), id).Counted? || PhaseOf(After(w, run), id).Checked? ==> AtMost(Drift(w, run, id), Nothing)
  {
    if run != [] {
      DriftOnlyDown(w, run[..|run| - 1], id);
      PhaseBefore(w, After(w, run[..|run| - 1]), run[|run| - 1], id);
    }
  }

  lemma {:induction false} PhaseBefore(w: World, s: State, e: Event, id: int)
    ensures var p, p' := PhaseOf(s, id), PhaseOf(Step(w, s, e), id);
            (p'.Counted? || p'.Checked?) && !Counts(s, e, id) ==> p.Counted? || p.Checked?
  {}

  /**
    Whatever else happened between its steps, a create that is accepted leaves the user's totals within
    the limits it had read, if no deleted VM of that user came back between its count and its commit.
  */
  lemma {:induction false} AcceptedWithinLimits(w: World, run: seq<Event>, id: int)
    requires Undisturbed(w, run, id) && PhaseOf(After(w, run), id).Checked?
    ensures var s, s' := After(w, run), After(w, run + [Commit(id)]);
            AtMost(Used(s'.rows, s.requests[id].user), s.requests[id].phase.limits)
    ensures HasRoom(After(w, run).rows, After(w, run).requests[id])
  {
    AcceptedExactly(w, run, id);
    RunTracks(w, run, id);
    DriftOnlyDown(w, run, id);
  }

  // ---------------------------------------------------------------- quotas that never shrink

  /** The quota the user service grants. */
  function Quota(s: State, user: string): Amounts {
    if RemoteOf(s, user).quota.Some? then RemoteOf(s, user).quota.value else Nothing
  }

  function Allowed(w: World, s: State, user: string): Amounts {
    if w.admin(user) then Unlimited else Quota(s, user)
  }

  predicate Shrinks(s: State, e: Event) {
    e.SetRemote? && !AtMost(Quota(s, e.user), Quota(s.(remotes := s.remotes[e.user := e.remote]), e.user))
  }

  predicate NoShrinking(w: World, run: seq<Event>) {
    run == [] || (NoShrinking(w, run[..|run| - 1]) && !Shrinks(After(w, run[..|run| - 1]), run[|run| - 1]))
  }

  /** What a request remembers of a quota is no more than the quota of now. */
  ghost predicate Dated(w: World, s: State, r: Request) {
    && (r.phase.Ready? && r.phase.remote.quota.Some? ==> AtMost(r.phase.remote.quota.value, Quota(s, r.user)))
    && (InTransaction(r.phase) ==>
          && AtMost(r.phase.limits, Allowed(w, s, r.user))
          && (r.phase.upsert.Some? ==> AtMost(r.phase.upsert.value, Quota(s, r.user))))
  }

  ghost predicate WithinQuota(w: World, s: State) {
    && (forall u :: AtMost(Nothing, Quota(s, u)))
    && (forall u :: u in s.quotas ==> AtMost(s.quotas[u], Quota(s, u)))
    && (forall id :: id in s.requests ==> Dated(w, s, s.requests[id]))
    && (forall u :: AtMost(Used(s.rows, u), Allowed(w, s, u)))
  }

  lemma {:induction false} RemoteKeepsQuota(w: World, s: State, e: Event)
    requires WithinQuota(w, s) && e.SetRemote? && !Shrinks(s, e)
    ensures WithinQuota(w, Step(w, s, e))
  {
    var s' := Step(w, s, e);
    forall u ensures AtMost(Quota(s, u), Quota(s', u)) && AtMost(Allowed(w, s, u), Allowed(w, s', u)) {}
    forall id | id in s'.requests ensures Dated(w, s', s'.requests[id]) {
      assert Dated(w, s, s.requests[id]);
    }
  }

  lemma {:induction false} MoveKeepsQuota(w: World, s: State, id: int, p: Phase)
    requires WithinQuota(w, s) && id in s.requests && Dated(w, s, s.requests[id].(phase := p))
    ensures WithinQuota(w, Move(s, id, p))
  {
    SameRemotes(w, s, Move(s, id, p));
  }

  lemma {:induction false} SameRemotes(w: World, s: State, s': State)
    requires s.remotes == s'.remotes
    ensures forall u :: Quota(s', u) == Quota(s, u) && Allowed(w, s', u) == Allowed(w, s, u)
    ensures forall r :: Dated(w, s', r) == Dated(w, s, r)
  {}

  lemma {:induction false} EndKeepsQuota(w: World, s: State, id: int, answer: Option<Answer>)
    requires WithinQuota(w, s) && id in s.requests
    ensures WithinQuota(w, End(w, s, id, answer))
  {
    SameRemotes(w, s, End(w, s, id, answer));
  }

  lemma {:induction false} AcquireKeepsQuota(w: World, s: State, id: int)
    requires WithinQuota(w, s) && id in s.requests && s.requests[id].phase.Ready?
    ensures WithinQuota(w, DoAcquire(w, s, id))
  {
    SameRemotes(w, s, DoAcquire(w, s, id));
    var r := s.requests[id];
    assert Dated(w, s, r);
    assert AtMost(LimitsFor(w.admin(r.user), r.phase.remote, Stored(s.quotas, r.user)), Allowed(w, s, r.user));
  }

  lemma {:induction false} CommitKeepsQuota(w: World, s: State, id: int)
    requires WithinQuota(w, s) && id in s.requests && s.requests[id].phase.Checked? && HasRoom(s.rows, s.requests[id])
    ensures WithinQuota(w, DoCommit(w, s, id))
  {
    var s', r := DoCommit(w, s, id), s.requests[id];
    SameRemotes(w, s, s');
    assert Dated(w, s, r) && HasRoom(s.rows, r);
    forall u ensures AtMost(Used(s'.rows, u), Allowed(w, s', u)) {
      UsedSnoc(s.rows, Row(r.user, PENDING, r.demand), u);
    }
  }

  lemma {:induction false} StatusKeepsQuota(w: World, s: State, i: nat, status: VmStatus)
    requires WithinQuota(w, s) && i < |s.rows| && (s.rows[i].status == DELETED ==> status == DELETED)
    ensures WithinQuota(w, s.(rows := s.rows[i := s.rows[i].(status := status)]))
  {
    var s' := s.(rows := s.rows[i := s.rows[i].(status := status)]);
    SameRemotes(w, s, s');
    forall u ensures AtMost(Used(s'.rows, u), Allowed(w, s', u)) {
      UsedAfterStatus(s.rows, i, status, u);
    }
  }

  lemma {:induction false} BeginKeepsQuota(w: World, s: State, id: int, r: Request)
    requires WithinQuota(w, s) && r.phase.Begun?
    ensures WithinQuota(w, s.(requests := s.requests[id := r]))
  {
    SameRemotes(w, s, s.(requests := s.requests[id := r]));
  }

  lemma {:induction false} FetchKeepsQuota(w: World, s: State, id: int)
    requires WithinQuota(w, s) && PhaseOf(s, id).Begun?
    ensures WithinQuota(w, DoFetch(w, s, id))
  {
    MoveKeepsQuota(w, s, id, DoFetch(w, s, id).requests[id].phase);
  }

  lemma {:induction false} CountKeepsQuota(w: World, s: State, id: int)
    requires WithinQuota(w, s) && PhaseOf(s, id).Holding?
    ensures WithinQuota(w, DoCount(w, s, id))
  {
    var r := s.requests[id];
    assert Dated(w, s, r);
    MoveKeepsQuota(w, s, id, Counted(r.phase.limits, r.phase.upsert));
    EndKeepsQuota(w, s, id, Some(VmQuotaExceeded));
  }

  lemma {:induction false} AggregateKeepsQuota(w: World, s: State, id: int)
    requires WithinQuota(w, s) && PhaseOf(s, id).Counted?
    ensures WithinQuota(w, DoAggregate(w, s, id))
  {
    var r := s.requests[id];
    assert Dated(w, s, r);
    MoveKeepsQuota(w, s, id, Checked(r.phase.limits, r.phase.upsert));
    EndKeepsQuota(w, s, id, Some(CheckSizes(Used(s.rows, r.user), r.demand, r.phase.limits)));
  }

  lemma {:induction false} FailKeepsQuota(w: World, s: State, id: int)
    requires WithinQuota(w, s) && id in s.requests
    ensures WithinQuota(w, Step(w, s, Fail(id)))
  {
    EndKeepsQuota(w, s, id, None);
    MoveKeepsQuota(w, s, id, Ended(None));
  }

  lemma {:induction false} StepKeepsQuota(w: World, s: State, e: Event)
    requires WithinQuota(w, s) && !Revives(s, e) && !Shrinks(s, e) && (e.Commit? && e.id in s.requests ==> HasRoom(s.rows, s.requests[e.id]))
    ensures WithinQuota(w, Step(w, s, e))
  {
    match e
    case Begin(id, user, demand) => BeginKeepsQuota(w, s, id, Request(user, demand, Begun));
    case Fetch(id) => if PhaseOf(s, id).Begun? { FetchKeepsQuota(w, s, id); }
    case CountVms(id) => if PhaseOf(s, id).Holding? { CountKeepsQuota(w, s, id); }
    case Aggregate(id) => if PhaseOf(s, id).Counted? { AggregateKeepsQuota(w, s, id); }
    case Fail(id) => if id in s.requests { FailKeepsQuota(w, s, id); }
    case Acquire(id) => if PhaseOf(s, id).Ready? { AcquireKeepsQuota(w, s, id); }
    case Commit(id) => if PhaseOf(s, id).Checked? { CommitKeepsQuota(w, s, id); }
    case SetStatus(i, status) => if i < |s.rows| { StatusKeepsQuota(w, s, i, status); }
    case SetRemote(user, remote) => RemoteKeepsQuota(w, s, e);
  }

  lemma {:induction false} InitialWithinQuota(w: World)
    ensures WithinQuota(w, Initial)
  {}

  lemma {:induction false} NothingDisturbs(w: World, run: seq<Event>, id: int)
    requires NoRevival(w, run)
    ensures Undisturbed(w, run, id)
  {
    if run != [] { NothingDisturbs(w, run[..|run| - 1], id); }
  }

  lemma {:induction false} RunWithinQuota(w: World, run: seq<Event>)
    requires NoRevival(w, run) && NoShrinking(w, run)
    ensures WithinQuota(w, After(w, run))
  {
    if run == [] {
      InitialWithinQuota(w);
    } else {
      RunWithinQuota(w, run[..|run| - 1]);
      if run[|run| - 1].Commit? {
        NothingDisturbs(w, run[..|run| - 1], run[|run| - 1].id);
        if PhaseOf(After(w, run[..|run| - 1]), run[|run| - 1].id).Checked? {
          AcceptedWithinLimits(w, run[..|run| - 1], run[|run| - 1].id);
        }
      }
      StepKeepsQuota(w, After(w, run[..|run| - 1]), run[|run| - 1]);
    }
  }

  /**
    If no quota shrinks and no deleted VM comes back, every user is within quota in every reachable
    state, for any number of interleaved requests and whatever hash maps users to locks.
  */
  lemma {:induction false} NeverOverQuota(w: World, run: seq<Event>, user: string)
    requires NoRevival(w, run) && NoShrinking(w, run)
    ensures AtMost(Used(After(w, run).rows, user), Allowed(w, After(w, run), user))
  {
    RunWithinQuota(w, run);
  }

  // ---------------------------------------------------------------- the steps in a row

  /** The whole of `createVm` with nothing in between. */
  function Alone(w: World, s: State, id: int): State {
    Step(w, Step(w, Step(w, Step(w, Step(w, s, Fetch(id)), Acquire(id)), CountVms(id)), Aggregate(id)), Commit(id))
  }

  /** What `createVm` answers when nothing comes in between. */
  function AnswerFor(w: World, s: State, r: Request): Answer {
    if !w.admin(r.user) && !RemoteOf(s, r.user).active then NoSubscription
    else Check(Used(s.rows, r.user), r.demand, LimitsFor(w.admin(r.user), RemoteOf(s, r.user), Stored(s.quotas, r.user)))
  }

  /** Taken in a row, the steps give the answer of the method, add its row, and leave the lock free. */
  lemma {:induction false} AloneIsCreateVm(w: World, s: State, id: int)
    requires PhaseOf(s, id).Begun? && w.hash(s.requests[id].user) !in s.locks
    ensures var r, s' := s.requests[id], Alone(w, s, id);
            var answer := AnswerFor(w, s, r);
            && PhaseOf(s', id) == Ended(Some(answer))
            && Answers(answer, Used(s.rows, r.user), r.demand, w.admin(r.user),
                       if r.user in s.remotes then s.remotes[r.user] else Remote(false, None),
                       if r.user in s.quotas then Some(s.quotas[r.user]) else None)
            && s'.rows == (if answer.Created? then s.rows + [Row(r.user, PENDING, r.demand)] else s.rows)
            && s'.quotas == (if answer.Created? && !w.admin(r.user) && r.user in s.remotes && s.remotes[r.user].quota.Some?
                             then s.quotas[r.user := s.remotes[r.user].quota.value] else s.quotas)
            && s'.locks == s.locks
  {
    var r := s.requests[id];
    AnswerMeans(Used(s.rows, r.user), r.demand, w.admin(r.user), RemoteOf(s, r.user), Stored(s.quotas, r.user));
    var s1 := Step(w, s, Fetch(id));
    if PhaseOf(s1, id).Ready? {
      var s2 := Step(w, s1, Acquire(id));
      assert s2.locks - {w.hash(r.user)} == s.locks;
      InTurn(w, s2, id);
    }
  }

  lemma {:induction false} CountInTurn(w: World, s: State, id: int)
    requires PhaseOf(s, id).Holding?
    ensures var Request(user, d, Holding(limits, upsert)) := s.requests[id];
            var s' := Step(w, s, CountVms(id));
            && s'.rows == s.rows && s'.quotas == s.quotas
            && if Used(s.rows, user).vms >= limits.vms
               then PhaseOf(s', id) == Ended(Some(VmQuotaExceeded)) && s'.locks == s.locks - {w.hash(user)}
               else id in s'.requests && s'.requests[id] == Request(user, d, Counted(limits, upsert)) && s'.locks == s.locks
  {}

  lemma {:induction false} AggregateInTurn(w: World, s: State, id: int)
    requires PhaseOf(s, id).Counted?
    ensures var Request(user, d, Counted(limits, upsert)) := s.requests[id];
            var s', answer := Step(w, s, Aggregate(id)), CheckSizes(Used(s.rows, user), d, limits);
            && s'.rows == s.rows && s'.quotas == s.quotas
            && if answer.Created?
               then id in s'.requests && s'.requests[id] == Request(user, d, Checked(limits, upsert)) && s'.locks == s.locks
               else PhaseOf(s', id) == Ended(Some(answer)) && s'.locks == s.locks - {w.hash(user)}
  {}

  lemma {:induction false} EndedInTurn(w: World, s: State, id: int)
    requires PhaseOf(s, id).Ended?
    ensures Step(w, s, Aggregate(id)) == s && Step(w, s, Commit(id)) == s
  {}

  lemma {:induction false} InTurn(w: World, s: State, id: int)
    requires PhaseOf(s, id).Holding?
    ensures var Request(user, d, Holding(limits, upsert)) := s.requests[id];
            var s' := Step(w, Step(w, Step(w, s, CountVms(id)), Aggregate(id)), Commit(id));
            var answer := Check(Used(s.rows, user), d, limits);
            && PhaseOf(s', id) == Ended(Some(answer)) && s'.locks == s.locks - {w.hash(user)}
            && s'.rows == (if answer.Created? then s.rows + [Row(user, PENDING, d)] else s.rows)
            && s'.quotas == (if answer.Created? then Upserted(s.quotas, user, upsert) else s.quotas)
  {
    var s1 := Step(w, s, CountVms(id));
    CountInTurn(w, s, id);
    if PhaseOf(s1, id).Counted? {
      AggregateInTurn(w, s1, id);
      var s2 := Step(w, s1, Aggregate(id));
      if PhaseOf(s2, id).Ended? { EndedInTurn(w, s2, id); }
    } else {
      EndedInTurn(w, s1, id);
    }
  }
}
