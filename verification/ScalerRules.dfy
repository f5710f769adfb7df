/** controlplane/scaler.go: the decisions of the scaler and what one evaluation does to the tables. */
module ScalerRules {
  import opened Wrappers
  import opened ControlTables

  /** How the calls of one pool's evaluation turn out.  A call that fails changes nothing. */
  datatype Env = Env(capacityOk: bool, callOk: bool, insertOk: bool, listOk: bool, drainOk: bool, markOk: bool,
                     deleteOk: bool, poolOk: bool, newId: NodeId, now: int)

  // ----- thresholds, over integers: above 80 % and below 30 %; without capacity utilisation is 0

  predicate WantsUp(total: int, used: int, pool: CloudPool) {
    total > 0 && 5 * used > 4 * total && pool.current < pool.max
  }

  predicate WantsDown(total: int, used: int, pool: CloudPool) {
    (total > 0 ==> 10 * used < 3 * total) && pool.current > pool.min
  }

  // ----- the node to give up

  predicate Fits(s: Snapshot, provider: string, emptyOnly: bool) {
    s.row.provider == provider && (emptyOnly ==> s.row.running == 0)
  }

  function First(list: seq<Snapshot>, provider: string, emptyOnly: bool): (r: Option<Snapshot>)
    ensures r.Some? ==> r.value in list && Fits(r.value, provider, emptyOnly)
    ensures r.None? ==> forall s :: s in list ==> !Fits(s, provider, emptyOnly)
  {
    if list == [] then None
    else if Fits(list[0], provider, emptyOnly) then Some(list[0])
    else First(list[1..], provider, emptyOnly)
  }

  /** An empty node of the provider if there is one, else its first. */
  function Target(list: seq<Snapshot>, provider: string): Option<Snapshot> {
    var empty := First(list, provider, true);
    if empty.Some? then empty else First(list, provider, false)
  }

  lemma {:induction false} FirstIsLeast(list: seq<Snapshot>, provider: string, emptyOnly: bool)
    requires SortedByRunning(list)
    requires First(list, provider, emptyOnly).Some?
    ensures forall s :: s in list && Fits(s, provider, emptyOnly) ==>
      First(list, provider, emptyOnly).value.row.running <= s.row.running
  {
    if Fits(list[0], provider, emptyOnly) {
      forall s | s in list ensures list[0].row.running <= s.row.running {
        var k :| 0 <= k < |list| && list[k] == s;
      }
    } else {
      FirstIsLeast(list[1..], provider, emptyOnly);
      assert forall s :: s in list ==> s == list[0] || s in list[1..];
    }
  }

  /** On rows sorted by load the two passes choose the load a single pass would, except when the
      single pass finds a negative count and some node is empty. */
  lemma {:induction false} TwoPassesMatchOne(list: seq<Snapshot>, provider: string)
    requires SortedByRunning(list)
    ensures var one, empty := First(list, provider, false), First(list, provider, true);
      var same := Target(list, provider) == one;
      same <==> !(one.Some? && one.value.row.running < 0 && empty.Some?)
  {
    var one := First(list, provider, false);
    if one.Some? {
      FirstIsLeast(list, provider, false);
      if one.value.row.running >= 0 && First(list, provider, true).Some? {
        ZeroPassesAgree(list, provider);
      }
    }
  }

  lemma {:induction false} ZeroPassesAgree(list: seq<Snapshot>, provider: string)
    requires SortedByRunning(list)
    requires First(list, provider, false).Some? && First(list, provider, false).value.row.running >= 0
    requires First(list, provider, true).Some?
    ensures First(list, provider, true) == First(list, provider, false)
  {
    if Fits(list[0], provider, false) {
      FirstIsLeast(list, provider, false);
      assert First(list, provider, true).value.row.running == 0;
    } else {
      ZeroPassesAgree(list[1..], provider);
    }
  }

  /** With counts in bounds the choice is a least loaded online node of the provider; there is none
      exactly when the provider has no online node. */
  lemma TargetIsLeast(list: seq<Snapshot>, nodes: Nodes, provider: string)
    requires OnlineListing(list, nodes) && RowsBounded(nodes)
    ensures var t := Target(list, provider);
      && (t.None? <==> forall id :: id in OnlineIds(nodes) ==> nodes[id].provider != provider)
      && (t.Some? ==>
            && t.value.id in OnlineIds(nodes) && t.value.row == nodes[t.value.id] && t.value.row.provider == provider
            && forall id :: id in OnlineIds(nodes) && nodes[id].provider == provider ==>
                t.value.row.running <= nodes[id].running)
  {
    TwoPassesMatchOne(list, provider);
    var one := First(list, provider, false);
    if one.Some? {
      FirstIsLeast(list, provider, false);
      var k :| 0 <= k < |list| && list[k] == one.value;
    }
    forall id | id in OnlineIds(nodes) ensures Snapshot(id, nodes[id]) in list {
    }
  }

  method FindTarget(list: seq<Snapshot>, provider: string) returns (target: Option<Snapshot>)
    ensures target == Target(list, provider)
  {
    target := None;
    assert list[0..] == list;
    for i := 0 to |list|
      invariant target == None
      invariant First(list, provider, true) == First(list[i..], provider, true)
    {
      assert list[i..][1..] == list[i + 1..];
      if list[i].row.provider == provider && list[i].row.running == 0 {
        target := Some(list[i]);
        break;
      }
    }
    if target == None {
      for i := 0 to |list|
        invariant target == None
        invariant First(list, provider, false) == First(list[i..], provider, false)
      {
        assert list[i..][1..] == list[i + 1..];
        if list[i].row.provider == provider {
          target := Some(list[i]);
          break;
        }
      }
    }
  }

  // ----- what one pool's evaluation does to the tables

  function ScaledUp(t: Tables, s: PoolSnapshot, known: set<string>, env: Env): Tables {
    if s.pool.provider !in known || !env.callOk || !env.insertOk then t
    else
      Tables(Upserted(t.nodes, env.newId, ProvisionedRow(s.pool.provider, env.now)),
             Recounted(t.pools, s, s.pool.current + 1, env.poolOk))
  }

  function Recounted(pools: Pools, s: PoolSnapshot, current: int, ok: bool): Pools {
    if ok then PoolUpserted(pools, s.id, s.pool.(current := current)) else pools
  }

  function Clamped(current: int): int { if current < 0 then 0 else current }

  function Terminated(t: Tables, s: PoolSnapshot, node: Snapshot, known: set<string>, env: Env): Tables {
    if node.row.provider !in known then t
    else Stopped(t.(nodes := if env.markOk then WithStatus(t.nodes, node.id, Terminating) else t.nodes), s, node, env)
  }

  function Stopped(t: Tables, s: PoolSnapshot, node: Snapshot, env: Env): Tables {
    if !env.callOk then t
    else
      Tables(if env.deleteOk then t.nodes - {node.id} else t.nodes,
             Recounted(t.pools, s, Clamped(s.pool.current - 1), env.poolOk))
  }

  function ScaledDown(t: Tables, s: PoolSnapshot, known: set<string>, list: seq<Snapshot>, env: Env): Tables {
    var target := if env.listOk then Target(list, s.pool.provider) else None;
    if target == None then t
    else
      var drained := t.(nodes := if env.drainOk then WithStatus(t.nodes, target.value.id, Draining) else t.nodes);
      if target.value.row.running == 0 then Terminated(drained, s, target.value, known, env) else drained
  }

  ghost function PoolEvaluated(t: Tables, s: PoolSnapshot, known: set<string>, list: seq<Snapshot>, env: Env): Tables {
    if GoesUp(t, s, env) then ScaledUp(t, s, known, env)
    else if GoesDown(t, s, env) then ScaledDown(t, s, known, list, env)
    else t
  }

  ghost predicate GoesUp(t: Tables, s: PoolSnapshot, env: Env) {
    env.capacityOk && WantsUp(Capacity(t.nodes), Used(t.nodes), s.pool)
  }

  ghost predicate GoesDown(t: Tables, s: PoolSnapshot, env: Env) {
    env.capacityOk && !GoesUp(t, s, env) && WantsDown(Capacity(t.nodes), Used(t.nodes), s.pool)
  }

  // ----- the offline scan

  /** Two minutes. */
  const SILENCE := 120 * SECOND

  predicate Stale(row: NodeRow, now: int) {
    row.status == Online && row.lastSeen * SECOND < now - SILENCE
  }

  ghost function Scanned(nodes: Nodes, now: int, failing: set<NodeId>): Nodes {
    map id | id in nodes ::
      if Stale(nodes[id], now) && id !in failing then nodes[id].(status := Offline) else nodes[id]
  }

  /** The rows a scan has still to look at. */
  ghost function Left(list: seq<Snapshot>, i: nat): set<NodeId> {
    set k | i <= k < |list| :: list[k].id
  }

  lemma AllLeft(list: seq<Snapshot>, nodes: Nodes)
    requires Lists(list, nodes, nodes.Keys)
    ensures Left(list, 0) == nodes.Keys
  {
  }

  lemma LeftStep(list: seq<Snapshot>, nodes: Nodes, i: nat)
    requires Lists(list, nodes, nodes.Keys) && i < |list|
    ensures list[i].id in nodes && list[i].row == nodes[list[i].id]
    ensures list[i].id !in Left(list, i + 1) && Left(list, i) == Left(list, i + 1) + {list[i].id}
  {
  }

  lemma NoneScanned(nodes: Nodes, now: int, failing: set<NodeId>)
    ensures Scanned(nodes, now, failing + nodes.Keys) == nodes
  {
  }

  lemma ScanOne(nodes: Nodes, now: int, failing: set<NodeId>, left: set<NodeId>, id: NodeId)
    requires id in nodes && id !in left
    ensures var before := Scanned(nodes, now, failing + (left + {id}));
      Scanned(nodes, now, failing + left)
        == if Stale(nodes[id], now) && id !in failing then WithStatus(before, id, Offline) else before
  {
  }

  // ----- laws of one pool's evaluation

  lemma NodesAfter(t: Tables, s: PoolSnapshot, known: set<string>, list: seq<Snapshot>, env: Env)
    requires GoesDown(t, s, env) ==> OnlineListing(list, t.nodes)
    ensures var after := PoolEvaluated(t, s, known, list, env);
      && after.nodes.Keys <= t.nodes.Keys + {env.newId}
      && forall id :: id in t.nodes && id !in after.nodes ==>
        t.nodes[id].status == Online && t.nodes[id].provider == s.pool.provider && t.nodes[id].running == 0
  {
  }

  lemma TargetListed(list: seq<Snapshot>, nodes: Nodes, provider: string)
    requires OnlineListing(list, nodes)
    ensures var target := Target(list, provider);
      target.Some? ==>
        && target.value.id in OnlineIds(nodes)
        && target.value.row == nodes[target.value.id]
        && target.value.row.provider == provider
  {
  }

  /** Only the pool's own counter moves, by at most one, and it stays inside its range. */
  lemma CounterAfter(t: Tables, s: PoolSnapshot, known: set<string>, list: seq<Snapshot>, env: Env)
    requires s.id in t.pools && t.pools[s.id] == s.pool && 0 <= s.pool.min
    ensures var after := PoolEvaluated(t, s, known, list, env).pools;
      && after.Keys == t.pools.Keys
      && after - {s.id} == t.pools - {s.id}
      && after[s.id] == s.pool.(current := after[s.id].current)
      && -1 <= after[s.id].current - s.pool.current <= 1
      && (s.pool.min <= s.pool.current <= s.pool.max ==> s.pool.min <= after[s.id].current <= s.pool.max)
  {
  }

  /** A fresh row for every unit counted and a row less for every unit uncounted. */
  lemma BalanceAfter(t: Tables, s: PoolSnapshot, known: set<string>, list: seq<Snapshot>, env: Env, provider: string)
    requires s.id in t.pools && t.pools[s.id] == s.pool && 0 <= s.pool.min
    requires GoesDown(t, s, env) ==> OnlineListing(list, t.nodes)
    requires env.newId !in t.nodes && env.poolOk && env.deleteOk
    ensures Balance(PoolEvaluated(t, s, known, list, env), provider) == Balance(t, provider)
  {
    hide OnlineListing, Target, Capacity, Used, RowsOf, CountedFor;
    if GoesUp(t, s, env) {
      SetRowProvider(t.nodes, env.newId, ProvisionedRow(s.pool.provider, env.now), provider);
      SetPool(t.pools, s.id, s.pool.(current := s.pool.current + 1), provider);
    } else if GoesDown(t, s, env) && env.listOk {
      TargetListed(list, t.nodes, s.pool.provider);
      var target := Target(list, s.pool.provider);
      if target.Some? {
        var drained := if env.drainOk then WithStatus(t.nodes, target.value.id, Draining) else t.nodes;
        var marked := if env.markOk then WithStatus(drained, target.value.id, Terminating) else drained;
        StatusKeepsRows(t.nodes, target.value.id, Draining, provider);
        StatusKeepsRows(drained, target.value.id, Terminating, provider);
        DropRowProvider(marked, target.value.id, provider);
        SetPool(t.pools, s.id, s.pool.(current := s.pool.current - 1), provider);
      }
    }
  }

  /** Why the minimum may not be negative: a pool that counts no node and still stops one comes out of
      balance, since the counter is held at zero. */
  lemma ClampUnbalances(t: Tables, s: PoolSnapshot, known: set<string>, list: seq<Snapshot>, env: Env)
    requires s.id in t.pools && t.pools[s.id] == s.pool && s.pool.provider in known
    requires GoesDown(t, s, env) && OnlineListing(list, t.nodes)
    requires env.listOk && env.callOk && env.deleteOk && env.poolOk
    requires Target(list, s.pool.provider).Some? && Target(list, s.pool.provider).value.row.running == 0
    ensures Balance(PoolEvaluated(t, s, known, list, env), s.pool.provider) == Balance(t, s.pool.provider)
      <==> s.pool.current >= 1
  {
    hide OnlineListing, Target, Capacity, Used, RowsOf, CountedFor;
    var provider := s.pool.provider;
    TargetListed(list, t.nodes, provider);
    var id := Target(list, provider).value.id;
    var drained := if env.drainOk then WithStatus(t.nodes, id, Draining) else t.nodes;
    var marked := if env.markOk then WithStatus(drained, id, Terminating) else drained;
    StatusKeepsRows(t.nodes, id, Draining, provider);
    StatusKeepsRows(drained, id, Terminating, provider);
    DropRowProvider(marked, id, provider);
    SetPool(t.pools, s.id, s.pool.(current := Clamped(s.pool.current - 1)), provider);
  }

  lemma StatusKeepsRows(nodes: Nodes, id: NodeId, status: Status, provider: string)
    ensures RowsOf(WithStatus(nodes, id, status), provider) == RowsOf(nodes, provider)
  {
    if id in nodes {
      SetRowProvider(nodes, id, nodes[id].(status := status), provider);
    }
  }

  // ----- a whole evaluation

  /** The counters may have moved from `before` to `after` by at most one each; `left` have not moved. */
  ghost predicate CountersMoved(before: Pools, after: Pools, left: set<PoolId>) {
    && after.Keys == before.Keys
    && forall id :: id in before ==>
      && after[id] == before[id].(current := after[id].current)
      && -1 <= after[id].current - before[id].current <= 1
      && (InRange(before[id]) ==> InRange(after[id]))
      && (id in left ==> after[id] == before[id])
  }

  /** The IDs drawn for new rows are new, and no statement on a pool or deletion fails. */
  ghost predicate Sound(env: PoolId -> Env, nodes: Nodes) {
    && (forall id :: env(id).newId !in nodes && env(id).poolOk && env(id).deleteOk)
    && (forall i, j :: i != j ==> env(i).newId != env(j).newId)
  }

  ghost function PoolsLeft(list: seq<PoolSnapshot>, i: nat): set<PoolId> {
    set k | i <= k < |list| :: list[k].id
  }

  lemma CountersStay(pools: Pools)
    ensures CountersMoved(pools, pools, {})
  {
  }

  lemma AllPoolsLeft(list: seq<PoolSnapshot>, pools: Pools)
    requires ListsPools(list, pools, pools.Keys)
    ensures CountersMoved(pools, pools, PoolsLeft(list, 0))
  {
  }

  lemma PoolsLeftStep(list: seq<PoolSnapshot>, pools: Pools, i: nat)
    requires ListsPools(list, pools, pools.Keys) && i < |list|
    ensures list[i].id in pools && list[i].pool == pools[list[i].id]
    ensures list[i].id !in PoolsLeft(list, i + 1)
    ensures PoolsLeft(list, i) == PoolsLeft(list, i + 1) + {list[i].id}
  {
  }

  lemma OneCounterMoved(before: Pools, middle: Pools, after: Pools, left: set<PoolId>, id: PoolId)
    requires CountersMoved(before, middle, left + {id})
    requires id in before && id !in left
    requires after.Keys == middle.Keys && after - {id} == middle - {id}
    requires after[id] == middle[id].(current := after[id].current)
    requires -1 <= after[id].current - middle[id].current <= 1
    requires middle[id].min <= middle[id].current <= middle[id].max ==>
      middle[id].min <= after[id].current <= middle[id].max
    ensures CountersMoved(before, after, left)
  {
    forall other | other in before && other != id ensures after[other] == middle[other] {
      assert other in after - {id} && other in middle - {id};
    }
  }

  /** Rows and counters balance as `before`, and the IDs the pools in `left` will draw are still unused. */
  ghost predicate StillBalanced(before: Tables, t: Tables, env: PoolId -> Env, left: set<PoolId>) {
    && (forall p: string :: Balance(t, p) == Balance(before, p))
    && (forall id :: id in left ==> env(id).newId !in t.nodes)
  }

  lemma NothingMoved(t: Tables, env: PoolId -> Env, left: set<PoolId>)
    ensures Sound(env, t.nodes) ==> StillBalanced(t, t, env, left)
  {
  }

  lemma ScanKeepsBalance(before: Tables, t: Tables, env: PoolId -> Env, now: int, failing: set<NodeId>)
    requires Sound(env, before.nodes) ==> StillBalanced(before, t, env, {})
    ensures Sound(env, before.nodes) ==>
      forall p: string :: Balance(t.(nodes := Scanned(t.nodes, now, failing)), p) == Balance(before, p)
  {
    forall p: string ensures RowsOf(Scanned(t.nodes, now, failing), p) == RowsOf(t.nodes, p) {
      ScanKeepsRows(t.nodes, now, failing, p);
    }
  }

  lemma PoolStep(before: Tables, middle: Tables, s: PoolSnapshot, known: set<string>, list: seq<Snapshot>,
                 env: PoolId -> Env, left: set<PoolId>)
    requires CountersMoved(before.pools, middle.pools, left + {s.id}) && s.id !in left
    requires s.id in before.pools && s.pool == before.pools[s.id] && 0 <= s.pool.min
    requires GoesDown(middle, s, env(s.id)) ==> OnlineListing(list, middle.nodes)
    ensures var after := PoolEvaluated(middle, s, known, list, env(s.id));
      && CountersMoved(before.pools, after.pools, left)
      && (Sound(env, before.nodes) && StillBalanced(before, middle, env, left + {s.id}) ==>
            StillBalanced(before, after, env, left))
  {
    hide Balance, PoolEvaluated, GoesDown, OnlineListing;
    var after := PoolEvaluated(middle, s, known, list, env(s.id));
    CounterAfter(middle, s, known, list, env(s.id));
    OneCounterMoved(before.pools, middle.pools, after.pools, left, s.id);
    NodesAfter(middle, s, known, list, env(s.id));
    if Sound(env, before.nodes) && StillBalanced(before, middle, env, left + {s.id}) {
      forall p: string ensures Balance(after, p) == Balance(before, p) {
        BalanceAfter(middle, s, known, list, env(s.id), p);
      }
    }
  }

  // ----- laws of the offline scan

  lemma ScanKeepsRows(nodes: Nodes, now: int, failing: set<NodeId>, provider: string)
    ensures RowsOf(Scanned(nodes, now, failing), provider) == RowsOf(nodes, provider)
  {
    assert Ones(Scanned(nodes, now, failing), provider) == Ones(nodes, provider);
  }

  lemma NoneStale(nodes: Nodes, now: int, failing: set<NodeId>)
    ensures forall id :: id in Scanned(nodes, now, failing) && id !in failing ==>
      !Stale(Scanned(nodes, now, failing)[id], now)
  {
  }

  /** `heard` holds, in nanoseconds, when each row was last written by a heartbeat. */
  ghost predicate HeardAt(nodes: Nodes, heard: map<NodeId, int>) {
    heard.Keys == nodes.Keys && forall id :: id in nodes ==> nodes[id].lastSeen == Seconds(heard[id])
  }

  /** No node left online has been silent for more than 120 s; one heard from within the last 119 s and
      1 ns is untouched, and so is every row that was not online. */
  lemma ScanMeaning(nodes: Nodes, heard: map<NodeId, int>, now: int)
    requires HeardAt(nodes, heard)
    ensures var after := Scanned(nodes, now, {});
      && after.Keys == nodes.Keys
      && (forall id :: id in after && after[id].status == Online ==> now - heard[id] <= 120_000_000_000)
      && (forall id :: id in nodes && now - heard[id] <= 119_000_000_001 ==> after[id] == nodes[id])
      && (forall id :: id in nodes && nodes[id].status != Online ==> after[id] == nodes[id])
      && (forall id :: id in nodes && after[id] != nodes[id] ==> after[id] == nodes[id].(status := Offline))
  {
  }

  /** The second lost to the time format is lost for good: a node silent for 1 ns more can be declared offline. */
  lemma ScanMarginIsTight(row: NodeRow, second: int)
    requires row.status == Online && row.lastSeen == second
    ensures var heard := second * 1_000_000_000 + 999_999_999;
      Seconds(heard) == second && Stale(row, heard + 119_000_000_002)
  {
  }

  /** Nodes report every 15 s: as long as they do, no scan changes anything. */
  lemma ReportingNodesStay(nodes: Nodes, heard: map<NodeId, int>, now: int, failing: set<NodeId>)
    requires HeardAt(nodes, heard) && forall id :: id in nodes ==> now - heard[id] <= 15_000_000_000
    ensures Scanned(nodes, now, failing) == nodes
  {
    forall id | id in nodes ensures !Stale(nodes[id], now) {
      assert nodes[id].lastSeen * SECOND > heard[id] - SECOND;
    }
  }

  /** A node silent for more than 120 s goes offline in the next scan whose update of it does not fail. */
  lemma SilentNodeGoes(nodes: Nodes, heard: map<NodeId, int>, now: int, failing: set<NodeId>, id: NodeId)
    requires HeardAt(nodes, heard) && id in nodes && nodes[id].status == Online
    requires now - heard[id] > 120_000_000_000 && id !in failing
    ensures Scanned(nodes, now, failing)[id] == nodes[id].(status := Offline)
  {
    assert nodes[id].lastSeen * SECOND <= heard[id];
  }
}
