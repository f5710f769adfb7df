/** runtime/firecracker/firecracker.go: one slot and one microVM per sandbox. */
module Firecracker {
  import opened Wrappers
  import opened Aggregates
  import opened SlotAddress
  import opened HostNetwork
  import opened SlotPool
  import opened NodeSystem
  import opened NodeCalls
  import VM = VirtualMachine

  /** How the outside world answers during one Create. */
  datatype World = World(
    templateExists: bool,
    fault: Fault,
    undoOk: bool,
    start: VM.StartFault,
    pid: int,
    agentUp: bool,
    cleanOk: bool,
    giveBack: Removal)
  {
    function Outcome(): CreateOutcome {
      CreateOutcome(templateExists, fault, undoOk, start == VM.NoFault && agentUp, giveBack)
    }
  }

  class Sandbox {
    const id: Id
    const ip: string
    var state: string

    constructor (id: Id, ip: string)
      ensures this.id == id && this.ip == ip && state == "running"
    {
      this.id, this.ip, state := id, ip, "running";
    }
  }

  datatype VmInfo = VmInfo(vm: VM.VM, slot: Slot, sb: Sandbox)

  /** The slot of every entry. */
  ghost function SlotsOf(vms: map<Id, VmInfo>): map<Id, int> {
    map id | id in vms :: vms[id].slot.id
  }

  /** Every entry has a machine, a sandbox record and an allocated slot of its own, and the machine sits on the
      slot's device. */
  ghost predicate Separate(vms: map<Id, VmInfo>, taken: set<int>) {
    && (forall id :: id in vms ==>
          vms[id].slot == NewSlot(vms[id].slot.id) && vms[id].slot.id in taken && vms[id].sb.id == id
          && vms[id].vm.tapDevice == vms[id].slot.tapName && vms[id].sb.ip == vms[id].slot.guestIp)
    && (forall i, j :: i in vms && j in vms && i != j ==>
          vms[i].vm != vms[j].vm && vms[i].sb != vms[j].sb && vms[i].slot.id != vms[j].slot.id)
  }

  /** No allocated slot is without an entry. */
  ghost predicate AllUsed(vms: map<Id, VmInfo>, taken: set<int>) {
    forall x :: x in taken ==> exists id :: id in vms && vms[id].slot.id == x
  }

  lemma InsertEntry(vms: map<Id, VmInfo>, taken: set<int>, id: Id, info: VmInfo)
    requires Separate(vms, taken)
    requires info.slot == NewSlot(info.slot.id) && info.slot.id !in taken && info.sb.id == id
    requires info.vm.tapDevice == info.slot.tapName && info.sb.ip == info.slot.guestIp
    requires forall i :: i in vms ==> vms[i].vm != info.vm && vms[i].sb != info.sb
    ensures Separate(vms[id := info], taken + {info.slot.id})
    ensures AllUsed(vms, taken) && id !in vms ==> AllUsed(vms[id := info], taken + {info.slot.id})
    ensures SlotsOf(vms[id := info]) == SlotsOf(vms)[id := info.slot.id]
  {
    hide NewSlot;
    if AllUsed(vms, taken) && id !in vms {
      var after := vms[id := info];
      forall x | x in taken + {info.slot.id}
        ensures exists i :: i in after && after[i].slot.id == x
      {
        if x == info.slot.id {
          assert after[id].slot.id == x;
        } else {
          var i :| i in vms && vms[i].slot.id == x;
          assert after[i].slot.id == x;
        }
      }
    }
  }

  lemma RemoveEntry(vms: map<Id, VmInfo>, taken: set<int>, id: Id)
    requires Separate(vms, taken) && id in vms
    ensures Separate(vms - {id}, taken - {vms[id].slot.id})
    ensures AllUsed(vms, taken) ==> AllUsed(vms - {id}, taken - {vms[id].slot.id})
    ensures SlotsOf(vms - {id}) == SlotsOf(vms) - {id}
    ensures forall i :: i in vms - {id} ==> vms[i].vm != vms[id].vm
  {
    hide NewSlot;
    if AllUsed(vms, taken) {
      var after := vms - {id};
      forall x | x in taken - {vms[id].slot.id}
        ensures exists i :: i in after && after[i].slot.id == x
      {
        var i :| i in vms && vms[i].slot.id == x;
        assert after[i].slot.id == x;
      }
    }
  }

  /** So no two machines share a device. */
  lemma DevicesApart(vms: map<Id, VmInfo>, taken: set<int>, i: Id, j: Id)
    requires Separate(vms, taken) && i in vms && j in vms && i != j
    ensures vms[i].vm.tapDevice != vms[j].vm.tapDevice
  {
    NamesInjective(vms[i].slot.id, vms[j].slot.id);
  }

  /** Then the allocated slots are exactly those of the entries. */
  lemma UsedExactly(vms: map<Id, VmInfo>, taken: set<int>)
    requires Separate(vms, taken) && AllUsed(vms, taken)
    ensures taken == SlotsOf(vms).Values && |taken| == |vms|
  {
    hide NewSlot;
    var slots := SlotsOf(vms);
    forall x | x in taken
      ensures exists id :: id in slots && slots[id] == x
    {
      var id :| id in vms && vms[id].slot.id == x;
      assert slots[id] == x;
    }
    assert taken == slots.Values;
    InjectiveSize(slots);
    assert |slots| == |slots.Keys| && slots.Keys == vms.Keys && |vms| == |vms.Keys|;
  }

  /** Only the map entry depends on the ID and on the other entries. */
  lemma CreatedFrom(net: Network, vms: map<Id, int>, id: Id, o: CreateOutcome)
    ensures var (n, m, _) := Created(net, map[], {}, 0, o);
      Created(net, vms, {}, id, o) == (n, if 0 in m then vms[id := m[0]] else vms, if 0 in m then {id} else {})
  {
    hide AllocateResult, ReleaseResult;
    var none: set<Id> := {};
    assert none + {id} == {id};
  }

  class FirecrackerRuntime {
    const pool: Pool
    var vms: map<Id, VmInfo>

    ghost function Machines(): set<VM.VM>
      reads this
    {
      set id | id in vms :: vms[id].vm
    }

    /** The process of every entry is alive, and no two entries share anything. */
    ghost predicate Valid()
      reads this, pool, pool.host, Machines()
    {
      && pool.Valid() && Separate(vms, pool.inUse.Keys)
      && (forall m :: m in Machines() ==> m.Valid() && m.state == VM.Running)
    }

    constructor (maxVMs: int, hostInterface: string, host: Host)
      requires host.Valid()
      ensures Valid() && vms == map[] && AllUsed(vms, pool.inUse.Keys) && fresh(pool) && pool.host == host
      ensures pool.maxSlots == if maxVMs <= 0 then 50 else maxVMs
      ensures pool.hostInterface == if hostInterface == "" then "eth0" else hostInterface
    {
      var limit := if maxVMs <= 0 then 50 else maxVMs;
      pool := new Pool(limit, hostInterface, host);
      vms := map[];
    }

    /** All or nothing: a Create that fails leaves the map and the allocated slots as they were,
        and a machine it built is stopped with no process behind it. */
    method Create(id: Id, w: World) returns (sb: Sandbox?, ghost built: VM.VM?)
      requires Valid()
      modifies this, pool, pool.host
      ensures Valid()
      ensures var after := Created(old(pool.View()), old(SlotsOf(vms)), {}, id, w.Outcome());
        (pool.View(), SlotsOf(vms)) == (after.0, after.1) && (sb != null <==> id in after.2)
      ensures sb != null <==>
        (&& w.templateExists && |old(pool.inUse.Keys)| < pool.maxSlots
         && w.fault == NoFault && w.start == VM.NoFault && w.agentUp)
      ensures sb == null ==> vms == old(vms) && pool.inUse.Keys == old(pool.inUse.Keys)
      ensures sb == null && built != null ==> built.state == VM.Stopped && !built.Live()
      ensures sb != null ==>
        && built != null && fresh(built) && fresh(sb) && sb.id == id && sb.state == "running"
        && (exists slot :: vms == old(vms)[id := VmInfo(built, slot, sb)]
              && slot.guestIp == sb.ip && slot.tapName == built.tapDevice)
      ensures old(AllUsed(vms, pool.inUse.Keys)) && id !in old(vms) ==> AllUsed(vms, pool.inUse.Keys)
    {
      hide NewSlot, AllocateResult, ReleaseResult, Created, Pool.View, Pool.Valid, Separate, AllUsed, SlotsOf;
      CreatedFrom(pool.View(), SlotsOf(vms), id, w.Outcome());
      var slot, vm := Provision(w);
      built := vm;
      if slot == None {
        return null, built;
      }
      var s := slot.value;
      sb := new Sandbox(id, s.guestIp);
      InsertEntry(vms, old(pool.inUse.Keys), id, VmInfo(vm, s, sb));
      vms := vms[id := VmInfo(vm, s, sb)];
    }

    /** A slot with a running machine on its device; or none, with the slot given back. */
    method Provision(w: World) returns (slot: Option<Slot>, built: VM.VM?)
      requires pool.Valid()
      modifies pool, pool.host
      ensures pool.Valid()
      ensures pool.View() == Created(old(pool.View()), map[], {}, 0, w.Outcome()).0
      ensures slot.Some? <==>
        (&& w.templateExists && |old(pool.inUse.Keys)| < pool.maxSlots
         && w.fault == NoFault && w.start == VM.NoFault && w.agentUp)
      ensures slot == None ==> pool.inUse.Keys == old(pool.inUse.Keys)
      ensures built != null ==> fresh(built) && built.Valid()
      ensures slot == None && built != null ==> built.state == VM.Stopped && !built.Live()
      ensures slot.Some? ==>
        && Created(old(pool.View()), map[], {}, 0, w.Outcome()).1 == map[0 := slot.value.id]
        && slot.value == NewSlot(slot.value.id) && slot.value.id !in old(pool.inUse)
        && pool.inUse.Keys == old(pool.inUse.Keys) + {slot.value.id}
        && built != null && built.state == VM.Running && built.tapDevice == slot.value.tapName
      ensures slot == None ==> Created(old(pool.View()), map[], {}, 0, w.Outcome()).1 == map[]
    {
      hide NewSlot, AllocateResult, ReleaseResult, Pool.View, Pool.Valid;
      slot, built := None, null;
      if !w.templateExists {
        return;
      }
      slot := pool.Allocate(w.fault, w.undoOk);
      if slot == None {
        return;
      }
      var ok;
      built, ok := Boot(slot.value, w);
      if !ok {
        pool.Release(slot.value, w.giveBack);
        assert pool.inUse.Keys == old(pool.inUse.Keys);
        slot := None;
      }
    }

    /** Starts the machine of a slot and waits for its agent; stops it again when none answers. */
    method Boot(s: Slot, w: World) returns (vm: VM.VM, ok: bool)
      requires s == NewSlot(s.id)
      ensures fresh(vm) && vm.Valid()
      ensures ok <==> w.start == VM.NoFault && w.agentUp
      ensures vm.tapDevice == s.tapName
      ensures ok ==> vm.state == VM.Running
      ensures !ok ==> vm.state == VM.Stopped && !vm.Live()
    {
      hide NewSlot;
      EverySlotHasDevice(s.id);
      vm := new VM.VM(s.tapName);
      ok := vm.Start(w.start, w.pid, w.cleanOk);
      if !ok {
        return;
      }
      if !w.agentUp {
        vm.Stop(w.cleanOk);
        ok := false;
      }
    }

    method Destroy(id: Id, cleanOk: bool, r: Removal) returns (ok: bool)
      requires Valid()
      modifies this, pool, pool.host, if id in vms then {vms[id].vm} else {}
      ensures Valid()
      ensures ok <==> id in old(vms)
      ensures vms == old(vms) - {id}
      ensures var after := DeletedFrom(old(pool.View()), old(SlotsOf(vms)), {id}, id, r);
        (pool.View(), SlotsOf(vms)) == (after.0, after.1)
      ensures ok ==> var vm := old(vms[id].vm); vm.state == VM.Stopped && !vm.Live()
      ensures old(AllUsed(vms, pool.inUse.Keys)) ==> AllUsed(vms, pool.inUse.Keys)
    {
      hide NewSlot, ReleaseResult, Pool.View, Pool.Valid, Separate, AllUsed;
      if id !in vms {
        assert vms - {id} == vms && SlotsOf(vms) - {id} == SlotsOf(vms);
        return false;
      }
      var info := vms[id];
      RemoveEntry(vms, pool.inUse.Keys, id);
      EntrySlot(vms, pool.inUse.Keys, id);
      vms := vms - {id};
      info.vm.Stop(cleanOk);
      pool.Release(info.slot, r);
      return true;
    }

    lemma EntrySlot(vms: map<Id, VmInfo>, taken: set<int>, id: Id)
      requires Separate(vms, taken) && id in vms
      ensures vms[id].slot == NewSlot(vms[id].slot.id) && SlotsOf(vms)[id] == vms[id].slot.id
    {
      hide NewSlot;
    }

    method Pause(id: Id) returns (ok: bool)
      requires Valid()
      modifies if id in vms then {vms[id].sb} else {}
      ensures Valid() && vms == old(vms) && pool.View() == old(pool.View())
      ensures ok <==> id in vms
      ensures ok ==> vms[id].sb.state == "paused"
    {
      hide Separate, Pool.View, Pool.Valid;
      if id !in vms {
        return false;
      }
      vms[id].sb.state := "paused";
      return true;
    }

    method Resume(id: Id) returns (ok: bool)
      requires Valid()
      modifies if id in vms then {vms[id].sb} else {}
      ensures Valid() && vms == old(vms) && pool.View() == old(pool.View())
      ensures ok <==> id in vms
      ensures ok ==> vms[id].sb.state == "running"
    {
      hide Separate, Pool.View, Pool.Valid;
      if id !in vms {
        return false;
      }
      vms[id].sb.state := "running";
      return true;
    }
  }
}
