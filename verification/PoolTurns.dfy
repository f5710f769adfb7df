/** One pool's turn in a round of evaluations: what it can do to capacity, load, rows and counter. */
module PoolTurns {
  import opened Wrappers
  import opened ControlTables
  import opened ScalerRules

  ghost predicate TurnBy(t: Tables, u: Tables, id: PoolId, known: set<string>, list: seq<Snapshot>, env: Env)
    requires id in t.pools
  {
    var s := PoolSnapshot(id, t.pools[id]);
    && env.poolOk && env.deleteOk && env.newId !in t.nodes
    && (GoesDown(t, s, env) ==> OnlineListing(list, t.nodes))
    && u == PoolEvaluated(t, s, known, list, env)
  }

  /** The turn does not drain a node that has sandboxes. */
  ghost predicate Calm(t: Tables, id: PoolId, list: seq<Snapshot>, env: Env)
    requires id in t.pools
  {
    var s, target := PoolSnapshot(id, t.pools[id]), Target(list, t.pools[id].provider);
    GoesDown(t, s, env) && env.listOk && target.Some? ==> target.value.row.running == 0
  }

  ghost predicate Turn(t: Tables, u: Tables, id: PoolId, known: set<string>, calm: bool) {
    id in t.pools && exists list, env :: TurnBy(t, u, id, known, list, env) && (calm ==> Calm(t, id, list, env))
  }

  /** Every row has a provisioned machine's room and a load within it. */
  ghost predicate Well(nodes: Nodes) {
    forall id :: id in nodes ==> nodes[id].max == NODE_CAPACITY && 0 <= nodes[id].running <= NODE_CAPACITY
  }

  datatype Scale = Scale(cap: int, used: int, rows: nat)

  ghost function ScaleOf(t: Tables): Scale { Scale(Capacity(t.nodes), Used(t.nodes), |t.nodes|) }

  /** What a turn can do; `delta` is the change of the pool's counter. */
  predicate Moves(g: Scale, h: Scale, delta: int, calm: bool) {
    || (g == h && delta == 0)
    || (delta == 1 && g.cap > 0 && 5 * g.used > 4 * g.cap && h == g.(rows := g.rows + 1))
    || (&& -1 <= delta <= 0 && g.cap >= NODE_CAPACITY && 10 * g.used < 3 * g.cap
        && h.cap == g.cap - NODE_CAPACITY && h.rows == g.rows + delta
        && 0 <= h.used <= g.used && h.used <= h.cap && (calm ==> h.used == g.used))
  }

  ghost predicate HasEmpty(nodes: Nodes, provider: string) {
    exists n :: n in nodes && nodes[n].status == Online && nodes[n].provider == provider && nodes[n].running == 0
  }

  /** A counter rises only below its maximum, and falls only above its minimum for an empty node; either way
      its provider is known. */
  ghost predicate Guarded(nodes: Nodes, pool: CloudPool, known: set<string>, delta: int) {
    && (delta > 0 ==> pool.current < pool.max && pool.provider in known)
    && (delta < 0 ==> pool.current > pool.min && pool.provider in known && HasEmpty(nodes, pool.provider))
  }

  /** Whatever is still online is as it was. */
  ghost predicate OnlineKept(a: Nodes, b: Nodes) {
    forall n :: n in b && b[n].status == Online ==> n in a && a[n] == b[n]
  }

  ghost predicate Counts(t: Tables, u: Tables, id: PoolId, delta: int) {
    id in t.pools && u.pools == t.pools[id := t.pools[id].(current := t.pools[id].current + delta)]
  }

  lemma TurnLaw(t: Tables, u: Tables, id: PoolId, known: set<string>, calm: bool) returns (delta: int)
    requires Turn(t, u, id, known, calm) && Well(t.nodes) && 0 <= t.pools[id].min
    ensures Well(u.nodes) && Counts(t, u, id, delta) && Moves(ScaleOf(t), ScaleOf(u), delta, calm)
    ensures Guarded(t.nodes, t.pools[id], known, delta) && OnlineKept(t.nodes, u.nodes)
  {
    hide OnlineListing, Target, Capacity, Used, Well, Moves, Guarded;
    var list, env :| TurnBy(t, u, id, known, list, env) && (calm ==> Calm(t, id, list, env));
    var s := PoolSnapshot(id, t.pools[id]);
    delta := 0;
    assert t.pools[id := t.pools[id].(current := t.pools[id].current + 0)] == t.pools;
    StayingMoves(ScaleOf(t), calm);
    StayingGuarded(t.nodes, s.pool, known);
    if GoesUp(t, s, env) {
      delta := TurnUp(t, s, known, env);
    } else if GoesDown(t, s, env) {
      delta := TurnDown(t, s, known, list, env, calm);
    }
  }

  lemma TurnUp(t: Tables, s: PoolSnapshot, known: set<string>, env: Env) returns (delta: int)
    requires s.id in t.pools && s.pool == t.pools[s.id] && env.poolOk && env.newId !in t.nodes
    requires Well(t.nodes) && WantsUp(Capacity(t.nodes), Used(t.nodes), s.pool)
    ensures var u := ScaledUp(t, s, known, env);
      && Well(u.nodes) && Counts(t, u, s.id, delta) && (forall calm :: Moves(ScaleOf(t), ScaleOf(u), delta, calm))
      && Guarded(t.nodes, s.pool, known, delta) && OnlineKept(t.nodes, u.nodes)
  {
    hide Capacity, Used, Well;
    var u := ScaledUp(t, s, known, env);
    assert t.pools[s.id := s.pool.(current := s.pool.current + 0)] == t.pools;
    RowIn(t.nodes, env.newId, ProvisionedRow(s.pool.provider, env.now));
    delta := if env.callOk && env.insertOk && s.pool.provider in known then 1 else 0;
  }

  lemma RowIn(nodes: Nodes, n: NodeId, row: NodeRow)
    requires Well(nodes) && n !in nodes && row.status != Online && row.max == NODE_CAPACITY && row.running == 0
    ensures Well(nodes[n := row]) && |nodes[n := row]| == |nodes| + 1
    ensures Capacity(nodes[n := row]) == Capacity(nodes) && Used(nodes[n := row]) == Used(nodes)
  {
    hide Capacity, Used;
    SetRow(nodes, n, row);
    assert nodes[n := row].Keys == nodes.Keys + {n};
    assert |nodes[n := row]| == |nodes[n := row].Keys| && |nodes| == |nodes.Keys|;
  }

  lemma TurnDown(t: Tables, s: PoolSnapshot, known: set<string>, list: seq<Snapshot>, env: Env, calm: bool)
    returns (delta: int)
    requires s.id in t.pools && s.pool == t.pools[s.id] && env.poolOk && env.deleteOk
    requires Well(t.nodes) && WantsDown(Capacity(t.nodes), Used(t.nodes), s.pool) && s.pool.min >= 0
    requires OnlineListing(list, t.nodes)
    requires calm && env.listOk && Target(list, s.pool.provider).Some? ==>
      Target(list, s.pool.provider).value.row.running == 0
    ensures var u := ScaledDown(t, s, known, list, env);
      && Well(u.nodes) && Counts(t, u, s.id, delta) && Moves(ScaleOf(t), ScaleOf(u), delta, calm)
      && Guarded(t.nodes, s.pool, known, delta) && OnlineKept(t.nodes, u.nodes)
  {
    hide OnlineListing, Target, Capacity, Used, Well, Moves, ScaledDown;
    delta := 0;
    StayingGuarded(t.nodes, s.pool, known);
    DownShape(t, s, known, list, env);
    StayingMoves(ScaleOf(t), calm);
    TargetListed(list, t.nodes, s.pool.provider);
    var u := ScaledDown(t, s, known, list, env);
    assert t.pools[s.id := s.pool.(current := s.pool.current + 0)] == t.pools;
    if u != t {
      var n := Target(list, s.pool.provider).value.id;
      if u.nodes == Out(t.nodes, n, Draining) {
        RowOut(t, n, Draining, calm);
      } else if u.nodes == Out(t.nodes, n, Terminating) {
        RowOut(t, n, Terminating, calm);
      } else {
        delta := -1;
        RowGone(t, n, calm);
        assert HasEmpty(t.nodes, s.pool.provider);
      }
    }
  }

  function Out(nodes: Nodes, n: NodeId, status: Status): Nodes
    requires n in nodes
  {
    nodes[n := nodes[n].(status := status)]
  }

  /** The chosen row is drained, given up, or gone; only then does the counter move. */
  lemma DownShape(t: Tables, s: PoolSnapshot, known: set<string>, list: seq<Snapshot>, env: Env)
    requires s.id in t.pools && s.pool == t.pools[s.id] && env.poolOk && env.deleteOk
    requires OnlineListing(list, t.nodes) && s.pool.current > 0
    ensures var u, target := ScaledDown(t, s, known, list, env), Target(list, s.pool.provider);
      u == t
      || (&& env.listOk && target.Some? && target.value.id in t.nodes
          && (|| (u.pools == t.pools
                  && (u.nodes == Out(t.nodes, target.value.id, Draining)
                      || u.nodes == Out(t.nodes, target.value.id, Terminating)))
              || (&& target.value.row.running == 0 && s.pool.provider in known && u.nodes == t.nodes - {target.value.id}
                  && u.pools == t.pools[s.id := s.pool.(current := s.pool.current - 1)])))
  {
    hide OnlineListing, Target;
    TargetListed(list, t.nodes, s.pool.provider);
  }

  lemma StayingGuarded(nodes: Nodes, pool: CloudPool, known: set<string>)
    ensures Guarded(nodes, pool, known, 0)
  {
  }

  lemma StayingMoves(g: Scale, calm: bool)
    ensures Moves(g, g, 0, calm)
  {
  }

  lemma RowGone(t: Tables, n: NodeId, calm: bool)
    requires Well(t.nodes) && n in t.nodes && t.nodes[n].status == Online && t.nodes[n].running == 0
    requires Capacity(t.nodes) > 0 ==> 10 * Used(t.nodes) < 3 * Capacity(t.nodes)
    ensures Well(t.nodes - {n})
    ensures Moves(ScaleOf(t), Scale(Capacity(t.nodes - {n}), Used(t.nodes - {n}), |t.nodes - {n}|), -1, calm)
  {
    hide Capacity, Used;
    DropRow(t.nodes, n);
    UsedWithinCapacity(t.nodes - {n});
    assert (t.nodes - {n}).Keys == t.nodes.Keys - {n};
    assert |t.nodes - {n}| == |(t.nodes - {n}).Keys| && |t.nodes| == |t.nodes.Keys|;
  }

  lemma RowOut(t: Tables, n: NodeId, status: Status, calm: bool)
    requires Well(t.nodes) && n in t.nodes && t.nodes[n].status == Online && status != Online
    requires calm ==> t.nodes[n].running == 0
    requires Capacity(t.nodes) > 0 ==> 10 * Used(t.nodes) < 3 * Capacity(t.nodes)
    ensures var after := t.nodes[n := t.nodes[n].(status := status)];
      Well(after) && Moves(ScaleOf(t), Scale(Capacity(after), Used(after), |after|), 0, calm)
  {
    hide Capacity, Used;
    var after := t.nodes[n := t.nodes[n].(status := status)];
    SetRow(t.nodes, n, t.nodes[n].(status := status));
    UsedWithinCapacity(after);
    assert after.Keys == t.nodes.Keys;
    assert |after| == |after.Keys| && |t.nodes| == |t.nodes.Keys|;
  }

  // ----- turns that come off

  function AllOk(newId: NodeId): Env { Env(true, true, true, true, true, true, true, true, newId, 0) }

  lemma DrainTurn(t: Tables, id: PoolId, known: set<string>, n: NodeId, list: seq<Snapshot>, newId: NodeId)
    requires id in t.pools && n in t.nodes && newId !in t.nodes && OnlineListing(list, t.nodes)
    requires !WantsUp(Capacity(t.nodes), Used(t.nodes), t.pools[id])
    requires WantsDown(Capacity(t.nodes), Used(t.nodes), t.pools[id])
    requires Target(list, t.pools[id].provider) == Some(Snapshot(n, t.nodes[n])) && t.nodes[n].running != 0
    ensures Turn(t, t.(nodes := Out(t.nodes, n, Draining)), id, known, false)
  {
    hide OnlineListing, Target, Capacity, Used;
    assert TurnBy(t, t.(nodes := Out(t.nodes, n, Draining)), id, known, list, AllOk(newId));
  }

  lemma DeleteTurn(t: Tables, id: PoolId, known: set<string>, n: NodeId, list: seq<Snapshot>, newId: NodeId)
    requires id in t.pools && n in t.nodes && newId !in t.nodes && OnlineListing(list, t.nodes)
    requires !WantsUp(Capacity(t.nodes), Used(t.nodes), t.pools[id])
    requires WantsDown(Capacity(t.nodes), Used(t.nodes), t.pools[id])
    requires Target(list, t.pools[id].provider) == Some(Snapshot(n, t.nodes[n])) && t.nodes[n].running == 0
    requires t.nodes[n].provider in known && t.pools[id].current >= 1
    ensures Turn(t, Tables(t.nodes - {n}, Counted(t.pools, id, -1)), id, known, false)
  {
    hide OnlineListing, Target, Capacity, Used;
    var marked := WithStatus(Out(t.nodes, n, Draining), n, Terminating);
    assert marked - {n} == t.nodes - {n};
    assert TurnBy(t, Tables(t.nodes - {n}, Counted(t.pools, id, -1)), id, known, list, AllOk(newId));
  }

  lemma GrowTurn(t: Tables, id: PoolId, known: set<string>, newId: NodeId)
    requires id in t.pools && newId !in t.nodes && t.pools[id].provider in known
    requires WantsUp(Capacity(t.nodes), Used(t.nodes), t.pools[id])
    ensures Turn(t, Tables(t.nodes[newId := ProvisionedRow(t.pools[id].provider, 0)], Counted(t.pools, id, 1)),
                 id, known, false)
  {
    hide Capacity, Used;
    assert TurnBy(t, Tables(t.nodes[newId := ProvisionedRow(t.pools[id].provider, 0)], Counted(t.pools, id, 1)),
                  id, known, [], AllOk(newId));
  }

  function Counted(pools: Pools, id: PoolId, delta: int): Pools
    requires id in pools
  {
    pools[id := pools[id].(current := pools[id].current + delta)]
  }
}
