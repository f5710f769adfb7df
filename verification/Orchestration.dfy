/** orchestrator/orchestrator.go and orchestrator/cleanup.go over the Firecracker runtime. */
module Orchestration {
  import opened HostNetwork
  import opened SlotPool
  import opened NodeSystem
  import opened NodeCalls
  import opened Firecracker
  import opened VmStore

  datatype CreateRequest = CreateRequest(template: string, vcpus: int, memoryMB: int, timeout: int)

  /** How the outside world answers during one Delete. */
  datatype Farewell = Farewell(cleanOk: bool, removal: Removal)

  lemma RemoveOneMore<K, V>(m: map<K, V>, done: set<K>, k: K)
    ensures m - done - {k} == m - (done + {k})
  {
  }

  class Orchestrator {
    const maxVMs: int
    const defaultTimeoutSec: int
    const store: VMStore
    const runtime: FirecrackerRuntime

    ghost predicate Valid()
      reads this, store, runtime, runtime.pool, runtime.pool.host, runtime.Machines()
    {
      store.Valid() && runtime.Valid()
    }

    /** The store and the runtime know the same sandboxes, and every slot belongs to one of them. */
    ghost predicate Agreement()
      reads store, runtime, runtime.pool
    {
      store.vms.Keys == runtime.vms.Keys && AllUsed(runtime.vms, runtime.pool.inUse.Keys)
    }

    ghost function View(): (Network, map<Id, int>, set<Id>)
      reads store, runtime, runtime.pool, runtime.pool.host
    {
      (runtime.pool.View(), SlotsOf(runtime.vms), store.vms.Keys)
    }

    constructor (maxVMs: int, defaultTimeoutSec: int, runtime: FirecrackerRuntime)
      requires runtime.Valid() && runtime.vms == map[] && AllUsed(runtime.vms, runtime.pool.inUse.Keys)
      ensures Valid() && Agreement() && this.maxVMs == maxVMs && this.runtime == runtime && fresh(store)
    {
      this.maxVMs, this.defaultTimeoutSec, this.runtime := maxVMs, defaultTimeoutSec, runtime;
      store := new VMStore();
    }

    /** The ID is generated by the caller's random source; `now` is the clock after the boot. */
    method Create(req: CreateRequest, id: Id, now: int, w: World) returns (instance: VMInstance?)
      requires Valid()
      modifies store, runtime, runtime.pool, runtime.pool.host
      ensures Valid()
      ensures View() ==
        if |old(store.vms)| >= maxVMs then old(View())
        else Created(old(runtime.pool.View()), old(SlotsOf(runtime.vms)), old(store.vms.Keys), id, w.Outcome())
      ensures instance != null <==>
        (&& |old(store.vms)| < maxVMs && w.templateExists
         && |old(runtime.pool.inUse.Keys)| < runtime.pool.maxSlots
         && w.fault == NoFault && w.start == VM.NoFault && w.agentUp)
      ensures instance == null ==> store.vms == old(store.vms) && runtime.vms == old(runtime.vms)
      ensures instance != null ==>
        && fresh(instance) && store.vms == old(store.vms)[id := instance] && instance.state == "running"
        && id in runtime.vms && fresh(runtime.vms[id].vm) && runtime.vms == old(runtime.vms)[id := runtime.vms[id]]
        && runtime.vms[id].sb.state == "running"
        && instance.guestIp == runtime.vms[id].sb.ip && instance.createdAt == now
        && instance.expiresAt == now + (if req.timeout > 0 then req.timeout else defaultTimeoutSec)
        && instance.template == (if req.template == "" then "base" else req.template)
        && instance.vcpus == (if req.vcpus > 0 then req.vcpus else 1)
        && instance.memoryMB == (if req.memoryMB > 0 then req.memoryMB else 512)
      ensures old(Agreement()) && id !in old(store.vms) ==> Agreement()
    {
      hide Pool.Valid, Separate, AllUsed, SlotsOf, Created;
      var count := store.Count();
      if count >= maxVMs {
        return null;
      }
      CreatedStore(runtime.pool.View(), SlotsOf(runtime.vms), store.vms.Keys, id, w.Outcome());
      var template := if req.template == "" then "base" else req.template;
      var vcpus := if req.vcpus > 0 then req.vcpus else 1;
      var memoryMB := if req.memoryMB > 0 then req.memoryMB else 512;
      var timeout := if req.timeout > 0 then req.timeout else defaultTimeoutSec;
      var sb, built := runtime.Create(id, w);
      if sb == null {
        return null;
      }
      instance := new VMInstance(id, template, vcpus, memoryMB, now, now + timeout, sb.ip);
      assert runtime.Valid();
      store.Put(instance);
      assert runtime.Valid();
      assert store.vms.Keys == old(store.vms.Keys) + {id};
    }

    /** An error of the runtime is only logged: the entry goes in any case. */
    method Delete(id: Id, f: Farewell) returns (ok: bool)
      requires Valid()
      modifies store, runtime, runtime.pool, runtime.pool.host,
        if id in runtime.vms then {runtime.vms[id].vm} else {}
      ensures Valid()
      ensures ok <==> id in old(store.vms)
      ensures View() ==
        if ok then DeletedFrom(old(runtime.pool.View()), old(SlotsOf(runtime.vms)), old(store.vms.Keys), id, f.removal)
        else old(View())
      ensures store.vms == old(store.vms) - {id}
      ensures runtime.vms == if ok then old(runtime.vms) - {id} else old(runtime.vms)
      ensures old(Agreement()) ==> Agreement()
    {
      hide Pool.View, Pool.Valid, Separate, AllUsed, SlotsOf, AllocateResult, ReleaseResult;
      var instance := store.Get(id);
      if instance == null {
        assert store.vms - {id} == store.vms;
        return false;
      }
      var destroyed := runtime.Destroy(id, f.cleanOk, f.removal);
      store.Delete(id);
      return true;
    }

    method Pause(id: Id) returns (ok: bool)
      requires Valid()
      modifies store, if id in store.vms then {store.vms[id]} else {},
        if id in runtime.vms then {runtime.vms[id].sb} else {}
      ensures Valid() && store.vms == old(store.vms) && runtime.vms == old(runtime.vms)
      ensures ok <==> id in store.vms && id in runtime.vms && old(store.vms[id].state) == "running"
      ensures ok ==> store.vms[id].state == "paused" && runtime.vms[id].sb.state == "paused"
    {
      hide Pool.View, Pool.Valid, Separate;
      var instance := store.Get(id);
      if instance == null {
        return false;
      }
      if instance.state != "running" {
        return false;
      }
      ok := runtime.Pause(id);
      if !ok {
        return false;
      }
      instance.state := "paused";
      store.Put(instance);
      return true;
    }

    method Resume(id: Id) returns (ok: bool)
      requires Valid()
      modifies store, if id in store.vms then {store.vms[id]} else {},
        if id in runtime.vms then {runtime.vms[id].sb} else {}
      ensures Valid() && store.vms == old(store.vms) && runtime.vms == old(runtime.vms)
      ensures ok <==> id in store.vms && id in runtime.vms && old(store.vms[id].state) == "paused"
      ensures ok ==> store.vms[id].state == "running" && runtime.vms[id].sb.state == "running"
    {
      hide Pool.View, Pool.Valid, Separate;
      var instance := store.Get(id);
      if instance == null {
        return false;
      }
      if instance.state != "paused" {
        return false;
      }
      ok := runtime.Resume(id);
      if !ok {
        return false;
      }
      instance.state := "running";
      store.Put(instance);
      return true;
    }

    /** Deletes every entry of a snapshot of the store, each with its own outcome; counts the deletes that fail. */
    method DeleteAll(snapshot: seq<VMInstance>, ghost ids: set<Id>, f: Id -> Farewell) returns (warnings: int)
      requires Valid() && Enumerates(snapshot, store.vms, ids)
      modifies store, runtime, runtime.pool, runtime.pool.host, runtime.Machines()
      ensures Valid() && warnings == 0
      ensures store.vms == old(store.vms) - ids && runtime.vms == old(runtime.vms) - ids
      ensures old(Agreement()) ==> Agreement()
    {
      hide Pool.View, Pool.Valid, Separate, AllUsed, SlotsOf, DeletedFrom;
      warnings := 0;
      ghost var done: set<Id> := {};
      for i := 0 to |snapshot|
        invariant Valid() && warnings == 0
        invariant done == set j | 0 <= j < i :: snapshot[j].id
        invariant store.vms == old(store.vms) - done && runtime.vms == old(runtime.vms) - done
        invariant old(Agreement()) ==> Agreement()
      {
        RemoveOneMore(old(store.vms), done, snapshot[i].id);
        RemoveOneMore(old(runtime.vms), done, snapshot[i].id);
        var ok := Delete(snapshot[i].id, f(snapshot[i].id));
        if !ok {
          warnings := warnings + 1;
        }
        done := done + {snapshot[i].id};
      }
      assert done == ids;
    }

    /** Exactly the expired entries go, each deleted once and successfully. */
    method CleanupExpired(now: int, f: Id -> Farewell) returns (warnings: int)
      requires Valid()
      modifies store, runtime, runtime.pool, runtime.pool.host, runtime.Machines()
      ensures Valid() && warnings == 0
      ensures var gone := ExpiredIds(old(store.vms), now);
        store.vms == old(store.vms) - gone && runtime.vms == old(runtime.vms) - gone
      ensures forall id :: id in old(store.vms) ==>
        (id in store.vms <==> old(store.vms)[id].expiresAt == 0 || now <= old(store.vms)[id].expiresAt)
      ensures old(Agreement()) ==>
        && Agreement()
        && runtime.pool.inUse.Keys == SlotsOf(runtime.vms).Values && |runtime.pool.inUse| == |store.vms|
    {
      hide Pool.View, Pool.Valid, Separate, AllUsed, SlotsOf;
      var expired := store.Expired(now);
      warnings := DeleteAll(expired, ExpiredIds(store.vms, now), f);
      if Agreement() {
        UsedExactly(runtime.vms, runtime.pool.inUse.Keys);
        assert |runtime.pool.inUse| == |runtime.pool.inUse.Keys|;
        assert |store.vms| == |store.vms.Keys| && |runtime.vms| == |runtime.vms.Keys|;
      }
    }

    /** When store and runtime agree, nothing survives a shutdown: no entry, no machine, no slot. */
    method Shutdown(f: Id -> Farewell) returns (warnings: int)
      requires Valid()
      modifies store, runtime, runtime.pool, runtime.pool.host, runtime.Machines()
      ensures Valid() && warnings == 0 && store.vms == map[]
      ensures old(Agreement()) ==> runtime.vms == map[] && runtime.pool.inUse == map[]
    {
      hide Pool.View, Pool.Valid, Separate;
      var all := store.List();
      warnings := DeleteAll(all, store.vms.Keys, f);
      if Agreement() {
        assert runtime.vms == map[];
        assert forall x :: x !in runtime.pool.inUse;
      }
    }
  }

  /** Clean-ups at these times, in this order: an entry stays exactly if none comes after its expiry. */
  method CleanRepeatedly(o: Orchestrator, id: Id, times: seq<int>, f: Id -> Farewell) returns (kept: bool)
    requires o.Valid() && id in o.store.vms
    modifies o.store, o.runtime, o.runtime.pool, o.runtime.pool.host, o.runtime.Machines()
    ensures o.Valid() && (kept <==> id in o.store.vms)
    ensures var expiry := old(o.store.vms)[id].expiresAt;
      kept <==> forall i :: 0 <= i < |times| ==> expiry == 0 || times[i] <= expiry
  {
    hide FirecrackerRuntime.Valid, VMStore.Valid, Orchestrator.Agreement, VMInstance.ExpiredAt;
    for i := 0 to |times|
      invariant o.Valid() && o.runtime.Machines() <= old(o.runtime.Machines())
      invariant var expiry := old(o.store.vms)[id].expiresAt;
        id in o.store.vms <==> forall j :: 0 <= j < i ==> expiry == 0 || times[j] <= expiry
      invariant id in o.store.vms ==> o.store.vms[id] == old(o.store.vms)[id]
    {
      var warnings := o.CleanupExpired(times[i], f);
    }
    var found := o.store.Get(id);
    kept := found != null;
  }

  /** A sandbox created at `t` with a positive timeout survives every clean-up up to `t` plus the timeout, and goes
      in the first one after. */
  method Lifetime(o: Orchestrator, req: CreateRequest, id: Id, t: int, w: World, times: seq<int>, f: Id -> Farewell)
    returns (created: bool, kept: bool)
    requires o.Valid() && t > 0 && req.timeout > 0
    modifies o.store, o.runtime, o.runtime.pool, o.runtime.pool.host, o.runtime.Machines()
    ensures o.Valid()
    ensures created <==>
      (&& |old(o.store.vms)| < o.maxVMs && w.templateExists
       && |old(o.runtime.pool.inUse.Keys)| < o.runtime.pool.maxSlots
       && w.fault == NoFault && w.start == VM.NoFault && w.agentUp)
    ensures created ==> (kept <==> forall i :: 0 <= i < |times| ==> times[i] <= t + req.timeout)
  {
    hide FirecrackerRuntime.Valid, VMStore.Valid, Orchestrator.Agreement, VMInstance.ExpiredAt, Created;
    var instance := o.Create(req, id, t, w);
    created, kept := instance != null, false;
    if created {
      assert o.runtime.Machines() <= old(o.runtime.Machines()) + {o.runtime.vms[id].vm};
      kept := CleanRepeatedly(o, id, times, f);
    }
  }
}
