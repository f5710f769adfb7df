/** The two thresholds over whole runs of one pool under a constant load: when nodes come online before
    the next evaluation, the scaler never turns round. */
module Hysteresis {
  import opened Aggregates
  import opened ControlTables
  import opened ScalerRules

  // ----- the thresholds

  /** Every row online, with a provisioned machine's room, and the loads adding up to `load`. */
  ghost predicate Settled(nodes: Nodes, load: int) {
    && (forall id :: id in nodes ==>
          nodes[id].status == Online && nodes[id].max == NODE_CAPACITY && 0 <= nodes[id].running <= NODE_CAPACITY)
    && Used(nodes) == load
  }

  lemma SettledCapacity(nodes: Nodes, load: int)
    requires Settled(nodes, load)
    ensures Capacity(nodes) == NODE_CAPACITY * |nodes| && 0 <= load <= NODE_CAPACITY * |nodes|
  {
    SumConstant(Maxes(nodes), NODE_CAPACITY);
    assert Maxes(nodes).Keys == nodes.Keys;
    assert |Maxes(nodes)| == |nodes|;
    UsedWithinCapacity(nodes);
  }

  /** Giving up an empty node leaves room for the load of the others. */
  lemma EmptyNodeSpared(nodes: Nodes, load: int, id: NodeId)
    requires Settled(nodes, load) && id in nodes && nodes[id].running == 0
    ensures |nodes - {id}| == |nodes| - 1 && Settled(nodes - {id}, load) && load <= NODE_CAPACITY * (|nodes| - 1)
  {
    DropRow(nodes, id);
    assert (nodes - {id}).Keys == nodes.Keys - {id};
    SettledCapacity(nodes - {id}, load);
  }

  /** Terminating an empty node of settled tables below 30 % cannot push utilisation above 80 %. */
  lemma ShrinkingStaysBelowHigh(nodes: Nodes, load: int, id: NodeId)
    requires Settled(nodes, load) && id in nodes && nodes[id].running == 0
    requires 10 * Used(nodes) < 3 * Capacity(nodes)
    ensures Used(nodes - {id}) == load && 5 * Used(nodes - {id}) <= 4 * Capacity(nodes - {id})
  {
    SettledCapacity(nodes, load);
    EmptyNodeSpared(nodes, load, id);
    SettledCapacity(nodes - {id}, load);
  }

  /** `k` nodes join `n` that are above 80 %, and the load spreads over all of them. */
  ghost predicate Joins(before: Nodes, after: Nodes, load: int, n: nat, k: nat) {
    && Settled(before, load) && Settled(after, load) && before.Keys <= after.Keys
    && |before| == n && |after| == n + k
    && 5 * Used(before) > 4 * Capacity(before)
  }

  ghost predicate AboveLow(nodes: Nodes) { 10 * Used(nodes) >= 3 * Capacity(nodes) }

  lemma JoinedStayAbove(before: Nodes, after: Nodes, load: int, n: nat, k: nat)
    requires Joins(before, after, load, n, k) && NODE_CAPACITY * n >= 30 * k
    ensures AboveLow(after)
  {
    hide Settled;
    SettledCapacity(before, load);
    SettledCapacity(after, load);
    LoadOfSettled(before, load);
    LoadOfSettled(after, load);
  }

  lemma NoneIsNotOverloaded(before: Nodes, after: Nodes, load: int, k: nat)
    ensures !Joins(before, after, load, 0, k)
  {
    if Joins(before, after, load, 0, k) {
      SettledCapacity(before, load);
    }
  }

  lemma LeastOverload(before: Nodes, after: Nodes, load: int, n: nat, k: nat)
    requires Settled(before, load) && Settled(after, load) && before.Keys <= after.Keys
    requires |before| == n && |after| == n + k && load == 40 * n + 1 && NODE_CAPACITY * n < 30 * k
    ensures Joins(before, after, load, n, k) && !AboveLow(after)
  {
    hide Settled;
    SettledCapacity(before, load);
    SettledCapacity(after, load);
    LoadOfSettled(before, load);
    LoadOfSettled(after, load);
  }

  lemma TooManyJoin(n: nat, k: nat)
    requires n > 0 && NODE_CAPACITY * n < 30 * k
    ensures exists before, after, load :: Joins(before, after, load, n, k) && !AboveLow(after)
  {
    hide Settled, Joins, AboveLow;
    var load := 40 * n + 1;
    FilledSettled(n, load);
    FilledSettled(n + k, load);
    LeastOverload(Filled(n, load), Filled(n + k, load), load, n, k);
  }

  /** Nodes that come online after a scale-up can never push utilisation below 30 %, exactly when the total
      before was at least 30 for each of them (or there was no node to overload). */
  lemma GrowthStaysAboveLow(n: nat, k: nat)
    ensures (forall before, after, load :: Joins(before, after, load, n, k) ==> AboveLow(after))
      <==> n == 0 || NODE_CAPACITY * n >= 30 * k
  {
    hide Joins, AboveLow;
    if n == 0 {
      forall before, after, load ensures !Joins(before, after, load, n, k) {
        NoneIsNotOverloaded(before, after, load, k);
      }
    } else if NODE_CAPACITY * n >= 30 * k {
      forall before, after, load | Joins(before, after, load, n, k) ensures AboveLow(after) {
        JoinedStayAbove(before, after, load, n, k);
      }
    } else {
      TooManyJoin(n, k);
    }
  }

  /** `m` rows that carry a load, each as much as it can. */
  function Filled(m: nat, load: nat): (nodes: Nodes)
    requires load <= NODE_CAPACITY * m
    ensures forall id: NodeId :: id in nodes <==> id < m
    ensures |nodes| == m
  {
    if m == 0 then map[]
    else
      var share := if load < NODE_CAPACITY then load else NODE_CAPACITY;
      Filled(m - 1, load - share)[m - 1 := NodeRow("", Online, NODE_CAPACITY, share, 0)]
  }

  lemma {:induction false} FilledSettled(m: nat, load: nat)
    requires load <= NODE_CAPACITY * m
    ensures Settled(Filled(m, load), load)
  {
    hide Settled;
    if m == 0 {
      NoneSettled();
    } else {
      var share := if load < NODE_CAPACITY then load else NODE_CAPACITY;
      FilledSettled(m - 1, load - share);
      OneMoreSettled(Filled(m - 1, load - share), load - share, m - 1, share);
    }
  }

  lemma NoneSettled()
    ensures Settled(map[], 0)
  {
    assert Loads(map[]) == map[];
  }

  lemma OneMoreSettled(nodes: Nodes, load: int, id: NodeId, share: nat)
    requires Settled(nodes, load) && id !in nodes && share <= NODE_CAPACITY
    ensures Settled(nodes[id := NodeRow("", Online, NODE_CAPACITY, share, 0)], load + share)
  {
    SetRow(nodes, id, NodeRow("", Online, NODE_CAPACITY, share, 0));
  }

  // ----- rounds

  /** An evaluation of the pool in which no deletion or update of the counter fails, after which every row
      reports in: the same rows are online again and carry the load, spread in any way. */
  ghost predicate Round(t: Tables, u: Tables, id: PoolId, known: set<string>, load: int) {
    exists list, env :: Evaluation(t, u, id, known, load, list, env)
  }

  ghost predicate Evaluation(t: Tables, u: Tables, id: PoolId, known: set<string>, load: int,
                             list: seq<Snapshot>, env: Env)
  {
    && id in t.pools
    && env.poolOk && env.deleteOk && env.newId !in t.nodes
    && var s := PoolSnapshot(id, t.pools[id]);
    && (GoesDown(t, s, env) ==> OnlineListing(list, t.nodes))
    && var v := PoolEvaluated(t, s, known, list, env);
    && u.pools == v.pools && u.nodes.Keys == v.nodes.Keys && Settled(u.nodes, load)
  }

  /** Size and counter of the pool as one pair of numbers. */
  datatype Gauge = Gauge(rows: nat, pool: CloudPool)

  ghost function GaugeOf(t: Tables, id: PoolId): Gauge
    requires id in t.pools
  {
    Gauge(|t.nodes|, t.pools[id])
  }

  /** What a round can do to them under a load. */
  predicate Grows(g: Gauge, h: Gauge, load: int) {
    && h == Gauge(g.rows + 1, g.pool.(current := g.pool.current + 1))
    && g.rows > 0 && load > 40 * g.rows && g.pool.current < g.pool.max
  }

  predicate Shrinks(g: Gauge, h: Gauge, load: int) {
    && g.rows > 0 && h == Gauge(g.rows - 1, g.pool.(current := g.pool.current - 1))
    && load < 15 * g.rows && load <= 50 * (g.rows - 1) && g.pool.current > g.pool.min
  }

  lemma RoundLaw(t: Tables, u: Tables, id: PoolId, known: set<string>, load: int)
    requires Settled(t.nodes, load) && id in t.pools && 0 <= t.pools[id].min && Round(t, u, id, known, load)
    ensures id in u.pools
    ensures var g, h := GaugeOf(t, id), GaugeOf(u, id);
      g == h || Grows(g, h, load) || Shrinks(g, h, load)
  {
    hide Settled, Capacity, Used, OnlineListing, Target;
    var list, env :| Evaluation(t, u, id, known, load, list, env);
    var s := PoolSnapshot(id, t.pools[id]);
    var v := PoolEvaluated(t, s, known, list, env);
    SettledCapacity(t.nodes, load);
    LoadOfSettled(t.nodes, load);
    assert |u.nodes.Keys| == |v.nodes.Keys|;
    if GoesUp(t, s, env) {
      UpLaw(t, s, known, env);
    } else if GoesDown(t, s, env) {
      DownLaw(t, s, known, list, env, load);
    }
  }

  lemma LoadOfSettled(nodes: Nodes, load: int)
    requires Settled(nodes, load)
    ensures Used(nodes) == load
  {
  }

  lemma UpLaw(t: Tables, s: PoolSnapshot, known: set<string>, env: Env)
    requires s.id in t.pools && t.pools[s.id] == s.pool && env.poolOk && env.newId !in t.nodes
    ensures var v := ScaledUp(t, s, known, env);
      v == t || (|v.nodes.Keys| == |t.nodes| + 1 && v.pools == t.pools[s.id := s.pool.(current := s.pool.current + 1)])
  {
  }

  lemma DownLaw(t: Tables, s: PoolSnapshot, known: set<string>, list: seq<Snapshot>, env: Env, load: int)
    requires s.id in t.pools && t.pools[s.id] == s.pool && env.poolOk && env.deleteOk
    requires OnlineListing(list, t.nodes) && Settled(t.nodes, load) && s.pool.current > 0
    ensures var v := ScaledDown(t, s, known, list, env);
      || (v.nodes.Keys == t.nodes.Keys && v.pools == t.pools)
      || (&& t.nodes != map[]
          && |v.nodes.Keys| == |t.nodes| - 1
          && v.pools == t.pools[s.id := s.pool.(current := s.pool.current - 1)]
          && load <= NODE_CAPACITY * (|t.nodes| - 1))
  {
    hide OnlineListing, Target, Settled;
    TargetListed(list, t.nodes, s.pool.provider);
    var v := ScaledDown(t, s, known, list, env);
    var target := Target(list, s.pool.provider);
    if target.Some? && target.value.row.running == 0 {
      EmptyNodeSpared(t.nodes, load, target.value.id);
      assert v.nodes.Keys == t.nodes.Keys || v.nodes.Keys == (t.nodes - {target.value.id}).Keys;
    }
  }

  // ----- direction

  /** Above 30 %: the pool cannot shrink.  At or below 80 %: it cannot grow. */
  predicate High(g: Gauge, load: int) { g.rows > 0 && load >= 15 * g.rows }

  predicate Low(g: Gauge, load: int) { load <= 40 * g.rows }

  /** Gauges of a run: each from the one before by a round. */
  predicate IsPath(gs: seq<Gauge>, load: int) {
    |gs| > 0 && forall i :: 0 <= i < |gs| - 1 ==>
      gs[i] == gs[i + 1] || Grows(gs[i], gs[i + 1], load) || Shrinks(gs[i], gs[i + 1], load)
  }

  predicate Rises(gs: seq<Gauge>, i: nat)
    requires i + 1 < |gs|
  {
    gs[i + 1].pool.current > gs[i].pool.current
  }

  predicate Falls(gs: seq<Gauge>, i: nat)
    requires i + 1 < |gs|
  {
    gs[i + 1].pool.current < gs[i].pool.current
  }

  /** How often the counter changes. */
  function Changes(gs: seq<Gauge>): nat {
    if |gs| <= 1 then 0 else (if gs[0] == gs[1] then 0 else 1) + Changes(gs[1..])
  }

  lemma {:induction false} HighPath(gs: seq<Gauge>, load: int)
    requires IsPath(gs, load) && High(gs[0], load)
    ensures forall i :: 0 <= i < |gs| - 1 ==> !Falls(gs, i)
    ensures Changes(gs) == gs[|gs| - 1].pool.current - gs[0].pool.current
    ensures gs[0].pool.current <= gs[0].pool.max ==> gs[|gs| - 1].pool.current <= gs[0].pool.max
    decreases |gs|
  {
    if |gs| > 1 {
      HighPath(gs[1..], load);
      assert forall i :: 0 < i < |gs| - 1 ==> Falls(gs, i) == Falls(gs[1..], i - 1);
    }
  }

  lemma {:induction false} LowPath(gs: seq<Gauge>, load: int)
    requires IsPath(gs, load) && Low(gs[0], load)
    ensures forall i :: 0 <= i < |gs| - 1 ==> !Rises(gs, i)
    ensures Changes(gs) == gs[0].pool.current - gs[|gs| - 1].pool.current
    ensures gs[0].pool.current >= gs[0].pool.min ==> gs[|gs| - 1].pool.current >= gs[0].pool.min
    decreases |gs|
  {
    if |gs| > 1 {
      LowPath(gs[1..], load);
      assert forall i :: 0 < i < |gs| - 1 ==> Rises(gs, i) == Rises(gs[1..], i - 1);
    }
  }

  lemma PathNeverTurns(gs: seq<Gauge>, load: int)
    requires |gs| > 0 && IsPath(gs, load) && load <= NODE_CAPACITY * gs[0].rows
    ensures forall i, j :: 0 <= i < |gs| - 1 && 0 <= j < |gs| - 1 ==> !(Rises(gs, i) && Falls(gs, j))
    ensures gs[0].pool.min <= gs[0].pool.current <= gs[0].pool.max ==>
      Changes(gs) <= gs[0].pool.max - gs[0].pool.min
  {
    hide IsPath, Grows, Shrinks, Changes, Rises, Falls;
    if Low(gs[0], load) {
      LowPath(gs, load);
    } else {
      HighPath(gs, load);
    }
  }

  // ----- runs of rounds

  ghost predicate IsSettledRun(ts: seq<Tables>, id: PoolId, known: set<string>, load: int) {
    && |ts| > 0
    && Settled(ts[0].nodes, load) && id in ts[0].pools && 0 <= ts[0].pools[id].min
    && forall i :: 0 <= i < |ts| - 1 ==> Round(ts[i], ts[i + 1], id, known, load)
  }

  ghost predicate HavePool(ts: seq<Tables>, id: PoolId) {
    forall i :: 0 <= i < |ts| ==> id in ts[i].pools
  }

  ghost function Gauges(ts: seq<Tables>, id: PoolId): (gs: seq<Gauge>)
    requires HavePool(ts, id)
    ensures |gs| == |ts| && forall i :: 0 <= i < |ts| ==> gs[i] == GaugeOf(ts[i], id)
  {
    seq(|ts|, i requires 0 <= i < |ts| => GaugeOf(ts[i], id))
  }

  lemma {:induction false} SettledRunIsPath(ts: seq<Tables>, id: PoolId, known: set<string>, load: int)
    requires IsSettledRun(ts, id, known, load)
    ensures HavePool(ts, id) && IsPath(Gauges(ts, id), load)
    decreases |ts|
  {
    hide Settled, Round, Grows, Shrinks, GaugeOf;
    if |ts| > 1 {
      var rest := ts[1..];
      assert Round(ts[0], ts[1], id, known, load);
      RoundLaw(ts[0], ts[1], id, known, load);
      RoundSettles(ts[0], ts[1], id, known, load);
      SettingsKept(ts[0], ts[1], id, load);
      forall i | 0 <= i < |rest| - 1 ensures Round(rest[i], rest[i + 1], id, known, load) {
        assert Round(ts[i + 1], ts[i + 2], id, known, load);
      }
      SettledRunIsPath(rest, id, known, load);
      forall i | 0 <= i < |ts| ensures id in ts[i].pools {
        assert i > 0 ==> ts[i] == rest[i - 1];
      }
      var gs, hs := Gauges(ts, id), Gauges(rest, id);
      forall i | 0 <= i < |gs| - 1
        ensures gs[i] == gs[i + 1] || Grows(gs[i], gs[i + 1], load) || Shrinks(gs[i], gs[i + 1], load)
      {
        if i > 0 {
          assert gs[i] == hs[i - 1] && gs[i + 1] == hs[i];
        }
      }
    }
  }

  lemma RoundSettles(t: Tables, u: Tables, id: PoolId, known: set<string>, load: int)
    requires Round(t, u, id, known, load)
    ensures Settled(u.nodes, load)
  {
  }

  lemma SettingsKept(t: Tables, u: Tables, id: PoolId, load: int)
    requires id in t.pools && id in u.pools
    requires var g, h := GaugeOf(t, id), GaugeOf(u, id); g == h || Grows(g, h, load) || Shrinks(g, h, load)
    ensures u.pools[id].min == t.pools[id].min && u.pools[id].max == t.pools[id].max
  {
  }

  /** Over a whole run under constant load the counter never both rises and falls, and it changes at most
      as often as the range has steps. */
  lemma NeverTurns(ts: seq<Tables>, id: PoolId, known: set<string>, load: int)
    requires IsSettledRun(ts, id, known, load)
    ensures HavePool(ts, id)
    ensures forall i, j :: 0 <= i < |ts| - 1 && 0 <= j < |ts| - 1 ==>
      !(Rises(Gauges(ts, id), i) && Falls(Gauges(ts, id), j))
    ensures var pool := ts[0].pools[id];
      pool.min <= pool.current <= pool.max ==> Changes(Gauges(ts, id)) <= pool.max - pool.min
  {
    hide Round, Settled, Changes, IsSettledRun, Rises, Falls, IsPath;
    SettledRunIsPath(ts, id, known, load);
    StartRoom(ts, id, known, load);
    PathNeverTurns(Gauges(ts, id), load);
  }

  lemma StartRoom(ts: seq<Tables>, id: PoolId, known: set<string>, load: int)
    requires IsSettledRun(ts, id, known, load)
    ensures |ts| > 0 && load <= NODE_CAPACITY * |ts[0].nodes|
  {
    SettledCapacity(ts[0].nodes, load);
  }
}
