/** controlplane/scaler.go: the scaler itself. */
module Scaler {
  import opened Wrappers
  import opened ControlTables
  import opened ScalerRules

  class Scaler {
    const db: Database
    const known: set<string>

    constructor (db: Database, known: set<string>)
      ensures this.db == db && this.known == known
    {
      this.db, this.known := db, known;
    }

    method ScaleUp(s: PoolSnapshot, env: Env)
      modifies db
      ensures db.View() == ScaledUp(old(db.View()), s, known, env)
      ensures s.pool.provider !in known || !env.callOk || !env.insertOk ==> db.View() == old(db.View())
      ensures s.pool.provider in known && env.callOk && env.insertOk && env.poolOk && s.id in old(db.pools) ==>
        && s.id in db.pools && db.pools - {s.id} == old(db.pools) - {s.id}
        && db.pools[s.id]
          == CloudPool(old(db.pools)[s.id].provider, s.pool.min, s.pool.max, s.pool.current + 1)
      ensures s.pool.provider in known && env.callOk && env.insertOk && env.newId !in old(db.nodes) ==>
        db.nodes == old(db.nodes)[
          env.newId := NodeRow(s.pool.provider, Provisioning, 50, 0, env.now / 1_000_000_000)]
    {
      if s.pool.provider !in known || !env.callOk {
        return;
      }
      db.UpsertNode(env.newId, ProvisionedRow(s.pool.provider, env.now), env.insertOk);
      if !env.insertOk {
        return;
      }
      db.UpsertCloudPool(s.id, s.pool.(current := s.pool.current + 1), env.poolOk);
    }

    method ScaleDown(s: PoolSnapshot, env: Env) returns (ghost list: seq<Snapshot>)
      modifies db
      ensures OnlineListing(list, old(db.nodes))
      ensures !env.listOk ==> db.View() == old(db.View())
      ensures db.View() == ScaledDown(old(db.View()), s, known, list, env)
    {
      var online := db.ListOnlineNodes();
      list := online;
      if !env.listOk || |online| == 0 {
        return;
      }
      var target := FindTarget(online, s.pool.provider);
      if target == None {
        return;
      }
      db.UpdateNodeStatus(target.value.id, Draining, env.drainOk);
      if target.value.row.running == 0 {
        TerminateNode(s, target.value, env);
      }
    }

    method TerminateNode(s: PoolSnapshot, node: Snapshot, env: Env)
      modifies db
      ensures db.View() == Terminated(old(db.View()), s, node, known, env)
      ensures node.row.provider !in known ==> db.View() == old(db.View())
      ensures node.row.provider !in known || !env.callOk ==>
        db.pools == old(db.pools) && db.nodes.Keys == old(db.nodes).Keys
      ensures node.row.provider in known && env.callOk && env.deleteOk ==> db.nodes == old(db.nodes) - {node.id}
      ensures node.row.provider in known && env.callOk && env.poolOk && s.id in old(db.pools) ==>
        && s.id in db.pools && db.pools - {s.id} == old(db.pools) - {s.id}
        && db.pools[s.id] == CloudPool(old(db.pools)[s.id].provider, s.pool.min, s.pool.max,
                                       if s.pool.current >= 1 then s.pool.current - 1 else 0)
    {
      if node.row.provider !in known {
        return;
      }
      db.UpdateNodeStatus(node.id, Terminating, env.markOk);
      if !env.callOk {
        return;
      }
      db.DeleteNode(node.id, env.deleteOk);
      var current := s.pool.current - 1;
      if current < 0 {
        current := 0;
      }
      db.UpsertCloudPool(s.id, s.pool.(current := current), env.poolOk);
    }

    method EvaluatePool(s: PoolSnapshot, env: Env) returns (ghost list: seq<Snapshot>)
      modifies db
      ensures GoesDown(old(db.View()), s, env) ==> OnlineListing(list, old(db.nodes))
      ensures db.View() == PoolEvaluated(old(db.View()), s, known, list, env)
      ensures !env.capacityOk ==> db.View() == old(db.View())
      ensures var total, used := Capacity(old(db.nodes)), Used(old(db.nodes));
        env.capacityOk && total > 0 && 5 * used > 4 * total && s.pool.current < s.pool.max
        && s.pool.provider in known && env.callOk && env.insertOk && env.newId !in old(db.nodes) ==>
          db.nodes == old(db.nodes)[
            env.newId := NodeRow(s.pool.provider, Provisioning, 50, 0, env.now / 1_000_000_000)]
    {
      list := [];
      var total, used := db.TotalCapacity();
      if !env.capacityOk {
        return;
      }
      if WantsUp(total, used, s.pool) {
        ScaleUp(s, env);
        return;
      }
      if WantsDown(total, used, s.pool) {
        list := ScaleDown(s, env);
      }
    }

    method DetectOfflineNodes(now: int, failing: set<NodeId>)
      modifies db`nodes
      ensures db.nodes == Scanned(old(db.nodes), now, failing)
    {
      hide Scanned, Lists, Stale, WithStatus;
      var list := db.ListNodes();
      ghost var before := db.nodes;
      AllLeft(list, before);
      NoneScanned(before, now, failing);
      for i := 0 to |list|
        invariant db.nodes == Scanned(before, now, failing + Left(list, i))
      {
        LeftStep(list, before, i);
        ScanOne(before, now, failing, Left(list, i + 1), list[i].id);
        if Stale(list[i].row, now) {
          db.UpdateNodeStatus(list[i].id, Offline, list[i].id !in failing);
        }
      }
      assert failing + Left(list, |list|) == failing;
    }

    /** Every counter moves by at most one and inside its range; rows and counters stay in balance. */
    method Evaluate(env: PoolId -> Env, listOk: bool, now: int, failing: set<NodeId>)
      requires forall id :: id in db.pools ==> 0 <= db.pools[id].min
      modifies db
      ensures CountersMoved(old(db.pools), db.pools, {})
      ensures Sound(env, old(db.nodes)) ==> forall p: string :: Balance(db.View(), p) == Balance(old(db.View()), p)
      ensures !listOk ==> db.View() == old(db.View())
      ensures listOk ==> forall id :: id in db.nodes && id !in failing ==> !Stale(db.nodes[id], now)
    {
      hide Balance, Sound, CountersMoved, ListsPools, PoolEvaluated, Scanned, GoesDown, OnlineListing, Stale;
      var list := db.ListCloudPools();
      ghost var before := db.View();
      AllPoolsLeft(list, before.pools);
      NothingMoved(before, env, PoolsLeft(list, 0));
      if !listOk {
        CountersStay(before.pools);
        return;
      }
      for i := 0 to |list|
        invariant CountersMoved(before.pools, db.pools, PoolsLeft(list, i))
        invariant Sound(env, before.nodes) ==> StillBalanced(before, db.View(), env, PoolsLeft(list, i))
      {
        PoolsLeftStep(list, before.pools, i);
        ghost var middle := db.View();
        ghost var online := EvaluatePool(list[i], env(list[i].id));
        PoolStep(before, middle, list[i], known, online, env, PoolsLeft(list, i + 1));
      }
      assert PoolsLeft(list, |list|) == {};
      ghost var evaluated := db.View();
      DetectOfflineNodes(now, failing);
      NoneStale(evaluated.nodes, now, failing);
      ScanKeepsBalance(before, evaluated, env, now, failing);
    }
  }
}
