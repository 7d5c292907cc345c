/** Billed VM time: the lengths of the VMs' lives clipped to a billing cycle, in milliseconds. */
module VmHours {
  import opened VmRows

  function Max(x: int, y: int): int { if x > y then x else y }

  function Min(x: int, y: int): int { if x < y then x else y }

  /** What one VM adds to a cycle. */
  function Billed(vm: VmRow, from: int, to: int): int {
    var started := Max(vm.createdAt, from);
    var ended := if vm.status == RUNNING || vm.stoppedAt.None? then to else Min(vm.stoppedAt.value, to);
    if ended <= started then 0 else ended - started
  }

  function Used(vms: seq<VmRow>, from: int, to: int): int {
    if vms == [] then 0 else Used(vms[..|vms| - 1], from, to) + Billed(vms[|vms| - 1], from, to)
  }

  /** `estimateVmHoursUsed` before it divides and rounds. */
  method EstimateVmMsUsed(vms: seq<VmRow>, cycleStart: int, cycleEnd: int) returns (total: int)
    ensures total == Used(vms, cycleStart, cycleEnd)
  {
    total := 0;
    for i := 0 to |vms|
      invariant total == Used(vms[..i], cycleStart, cycleEnd)
    {
      assert vms[..i + 1][..i] == vms[..i];
      var vm := vms[i];
      var started := if vm.createdAt > cycleStart then vm.createdAt else cycleStart;
      var nonRunningEnd := if vm.stoppedAt.Some? then vm.stoppedAt.value else cycleEnd;
      var ended := if vm.status == RUNNING then cycleEnd else if nonRunningEnd < cycleEnd then nonRunningEnd else cycleEnd;
      if ended > started {
        total := total + (ended - started);
      }
    }
    assert vms[..|vms|] == vms;
  }

  // ---------------------------------------------------------------- the reference: counting instants

  /** The VM is up in the millisecond that begins at `t`. */
  predicate UpAt(vm: VmRow, t: int) {
    vm.createdAt <= t && (vm.status == RUNNING || vm.stoppedAt.None? || t < vm.stoppedAt.value)
  }

  function CountUp(vms: seq<VmRow>, t: int): nat {
    if vms == [] then 0 else CountUp(vms[..|vms| - 1], t) + (if UpAt(vms[|vms| - 1], t) then 1 else 0)
  }

  /** The number of VM-milliseconds in `[from, to)`. */
  function Instants(vms: seq<VmRow>, from: int, to: int): nat
    decreases Max(0, to - from)
  {
    if to <= from then 0 else Instants(vms, from, to - 1) + CountUp(vms, to - 1)
  }

  /** Adjacent cycles add up. */
  lemma {:induction false} Additive(vms: seq<VmRow>, a: int, b: int, c: int)
    requires a <= b <= c
    ensures Used(vms, a, c) == Used(vms, a, b) + Used(vms, b, c)
  {
    if vms != [] { Additive(vms[..|vms| - 1], a, b, c); }
  }

  lemma {:induction false} OneInstant(vms: seq<VmRow>, t: int)
    ensures Used(vms, t, t + 1) == CountUp(vms, t)
  {
    if vms != [] { OneInstant(vms[..|vms| - 1], t); }
  }

  lemma {:induction false} EmptyCycle(vms: seq<VmRow>, from: int, to: int)
    requires to <= from
    ensures Used(vms, from, to) == 0
  {
    if vms != [] { EmptyCycle(vms[..|vms| - 1], from, to); }
  }

  /** The clipped lengths are exactly the VM-milliseconds of the cycle. */
  lemma {:induction false} UsedIsInstants(vms: seq<VmRow>, from: int, to: int)
    ensures Used(vms, from, to) == Instants(vms, from, to)
    decreases Max(0, to - from)
  {
    if to <= from {
      EmptyCycle(vms, from, to);
    } else {
      UsedIsInstants(vms, from, to - 1);
      OneInstant(vms, to - 1);
      Additive(vms, from, to - 1, to);
      assert to - 1 + 1 == to;
    }
  }

  /** A later cut-off never bills less, and nothing is billed beyond the cycle for any VM. */
  lemma {:induction false} MonotoneAndBounded(vms: seq<VmRow>, from: int, to: int, later: int)
    requires from <= to <= later
    ensures 0 <= Used(vms, from, to) <= Used(vms, from, later)
    ensures Used(vms, from, to) <= |vms| * (to - from)
  {
    if vms != [] {
      MonotoneAndBounded(vms[..|vms| - 1], from, to, later);
      assert |vms| * (to - from) == (|vms| - 1) * (to - from) + (to - from);
    }
  }

  lemma {:induction false} UsedRemove(vms: seq<VmRow>, i: nat, from: int, to: int)
    requires i < |vms|
    ensures Used(vms, from, to) == Used(vms[..i] + vms[i + 1..], from, to) + Billed(vms[i], from, to)
  {
    var rest := vms[..i] + vms[i + 1..];
    if i == |vms| - 1 {
      assert rest == vms[..i];
    } else {
      var init := vms[..|vms| - 1];
      UsedRemove(init, i, from, to);
      assert rest[..|rest| - 1] == init[..i] + init[i + 1..];
    }
  }

  lemma {:induction false} MultisetRemove(vms: seq<VmRow>, i: nat)
    requires i < |vms|
    ensures multiset(vms[..i] + vms[i + 1..]) == multiset(vms) - multiset{vms[i]}
  {
    assert vms == vms[..i] + [vms[i]] + vms[i + 1..];
  }

  lemma {:induction false} Find(vms: seq<VmRow>, vm: VmRow) returns (i: nat)
    requires vm in multiset(vms)
    ensures i < |vms| && vms[i] == vm
  {
    assert vm in vms;
    i :| 0 <= i < |vms| && vms[i] == vm;
  }

  /** The order of the VMs does not matter. */
  lemma {:induction false} OrderIrrelevant(a: seq<VmRow>, b: seq<VmRow>, from: int, to: int)
    requires multiset(a) == multiset(b)
    ensures Used(a, from, to) == Used(b, from, to)
  {
    if a == [] {
      assert |multiset(b)| == 0;
    } else {
      var last := |a| - 1;
      assert a[last] in multiset(a);
      var i := Find(b, a[last]);
      MultisetRemove(a, last);
      MultisetRemove(b, i);
      assert a[..last] + a[last + 1..] == a[..last];
      OrderIrrelevant(a[..last], b[..i] + b[i + 1..], from, to);
      UsedRemove(b, i, from, to);
    }
  }
}
