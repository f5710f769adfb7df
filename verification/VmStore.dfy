/** orchestrator/state.go: the in-memory store of sandbox instances.  Each method holds the
    store's mutex throughout, so each is one atomic step. */
module VmStore {
  import opened NodeSystem

  /** Times are seconds; zero is Go's zero time and means that the instance never expires. */
  class VMInstance {
    const id: Id
    const template: string
    const vcpus: int
    const memoryMB: int
    const createdAt: int
    const expiresAt: int
    const guestIp: string
    var state: string

    constructor (id: Id, template: string, vcpus: int, memoryMB: int, createdAt: int, expiresAt: int, guestIp: string)
      ensures this.id == id && this.template == template && this.vcpus == vcpus && this.memoryMB == memoryMB
      ensures this.createdAt == createdAt && this.expiresAt == expiresAt && this.guestIp == guestIp
      ensures state == "running"
    {
      this.id, this.template, this.vcpus, this.memoryMB := id, template, vcpus, memoryMB;
      this.createdAt, this.expiresAt, this.guestIp, state := createdAt, expiresAt, guestIp, "running";
    }

    predicate ExpiredAt(now: int) {
      expiresAt != 0 && expiresAt < now
    }
  }

  /** `list` enumerates `wanted`, each ID once. */
  ghost predicate Enumerates(list: seq<VMInstance>, vms: map<Id, VMInstance>, wanted: set<Id>) {
    && |list| == |wanted|
    && (forall i :: 0 <= i < |list| ==> list[i].id in wanted && list[i].id in vms && vms[list[i].id] == list[i])
    && (forall i, j :: 0 <= i < j < |list| ==> list[i].id != list[j].id)
    && (forall id :: id in wanted ==> id in vms && vms[id] in list)
  }

  ghost function ExpiredIds(vms: map<Id, VMInstance>, now: int): set<Id> {
    set id | id in vms && vms[id].ExpiredAt(now)
  }

  class VMStore {
    var vms: map<Id, VMInstance>

    ghost predicate Valid()
      reads this
    {
      forall id :: id in vms ==> vms[id].id == id
    }

    constructor ()
      ensures Valid() && vms == map[]
    {
      vms := map[];
    }

    method Put(instance: VMInstance)
      requires Valid()
      modifies this
      ensures Valid() && vms == old(vms)[instance.id := instance]
    {
      vms := vms[instance.id := instance];
    }

    method Get(id: Id) returns (instance: VMInstance?)
      ensures instance == if id in vms then vms[id] else null
    {
      if id in vms {
        return vms[id];
      }
      return null;
    }

    method Delete(id: Id)
      requires Valid()
      modifies this
      ensures Valid() && vms == old(vms) - {id}
    {
      vms := vms - {id};
    }

    /** The order of a Go map range is unspecified. */
    method List() returns (list: seq<VMInstance>)
      requires Valid()
      ensures Enumerates(list, vms, vms.Keys)
    {
      hide Enumerates, VMInstance.ExpiredAt;
      list := [];
      NothingYet(vms);
      var rest := vms.Keys;
      assert vms.Keys - rest == {};
      while rest != {}
        invariant rest <= vms.Keys
        invariant Valid() && Enumerates(list, vms, vms.Keys - rest)
        decreases rest
      {
        var id :| id in rest;
        Extend(list, vms, vms.Keys - rest, id);
        assert vms.Keys - (rest - {id}) == vms.Keys - rest + {id};
        list := list + [vms[id]];
        rest := rest - {id};
      }
      assert vms.Keys - {} == vms.Keys;
    }

    method Expired(now: int) returns (list: seq<VMInstance>)
      requires Valid()
      ensures Enumerates(list, vms, ExpiredIds(vms, now))
      ensures forall id :: id in vms ==> (vms[id] in list <==> vms[id].expiresAt != 0 && vms[id].expiresAt < now)
    {
      hide Enumerates, VMInstance.ExpiredAt;
      list := [];
      NothingYet(vms);
      var rest := vms.Keys;
      assert ExpiredIds(vms, now) - rest == {};
      while rest != {}
        invariant rest <= vms.Keys
        invariant Valid() && Enumerates(list, vms, ExpiredIds(vms, now) - rest)
        decreases rest
      {
        var id :| id in rest;
        if vms[id].ExpiredAt(now) {
          Extend(list, vms, ExpiredIds(vms, now) - rest, id);
          assert ExpiredIds(vms, now) - (rest - {id}) == ExpiredIds(vms, now) - rest + {id};
          list := list + [vms[id]];
        } else {
          assert ExpiredIds(vms, now) - (rest - {id}) == ExpiredIds(vms, now) - rest;
        }
        rest := rest - {id};
      }
      assert ExpiredIds(vms, now) - {} == ExpiredIds(vms, now);
      ExpiredListed(list, vms, now);
    }

    method Count() returns (n: nat)
      ensures n == |vms|
    {
      n := |vms|;
    }
  }

  lemma ExpiredListed(list: seq<VMInstance>, vms: map<Id, VMInstance>, now: int)
    requires Enumerates(list, vms, ExpiredIds(vms, now)) && forall id :: id in vms ==> vms[id].id == id
    ensures forall id :: id in vms ==> (vms[id] in list <==> vms[id].expiresAt != 0 && vms[id].expiresAt < now)
  {
  }

  lemma NothingYet(vms: map<Id, VMInstance>)
    ensures Enumerates([], vms, {})
  {
  }

  lemma Extend(list: seq<VMInstance>, vms: map<Id, VMInstance>, done: set<Id>, id: Id)
    requires Enumerates(list, vms, done) && id in vms && id !in done && vms[id].id == id
    ensures Enumerates(list + [vms[id]], vms, done + {id})
  {
  }
}
