/** The two thresholds over rounds in which several pools are evaluated in turn, all counting the same capacity. */
module PoolRounds {
  import opened Wrappers
  import opened ControlTables
  import opened ScalerRules
  import opened Hysteresis
  import opened PoolTurns

  // ----- a round

  /** The pools are evaluated one after the other. */
  ghost predicate Turns(t: Tables, v: Tables, ids: seq<PoolId>, known: set<string>, calm: bool)
    decreases |ids|
  {
    if ids == [] then t == v
    else exists m :: Turn(t, m, ids[0], known, calm) && Turns(m, v, ids[1..], known, calm)
  }

  /** Then every row reports in: the same rows are online again and carry the load, spread in any way. */
  ghost predicate Round(t: Tables, u: Tables, ids: seq<PoolId>, known: set<string>, load: int, calm: bool) {
    exists v :: Turns(t, v, ids, known, calm) && ReportsIn(v, u, load)
  }

  ghost predicate ReportsIn(v: Tables, u: Tables, load: int) {
    u.pools == v.pools && u.nodes.Keys == v.nodes.Keys && Settled(u.nodes, load)
  }

  /** Nothing about the pools changes but the counters, and these stay in range. */
  ghost predicate Kept(a: Pools, b: Pools) {
    && a.Keys == b.Keys
    && forall id :: id in a ==> b[id] == a[id].(current := b[id].current) && (InRange(a[id]) ==> InRange(b[id]))
  }

  /** What has to hold for the counter of a pool that rises, or falls, in a round from these nodes. */
  ghost predicate RiseGuard(pool: CloudPool, known: set<string>) {
    pool.current < pool.max && pool.provider in known
  }

  ghost predicate FallGuard(nodes: Nodes, pool: CloudPool, known: set<string>) {
    pool.current > pool.min && pool.provider in known && HasEmpty(nodes, pool.provider)
  }

  ghost predicate RisesOnly(a: Pools, b: Pools, known: set<string>) {
    && Kept(a, b)
    && forall id :: id in a ==> a[id].current <= b[id].current && (a[id] != b[id] ==> RiseGuard(a[id], known))
  }

  ghost predicate FallsOnly(nodes: Nodes, a: Pools, b: Pools, known: set<string>) {
    && Kept(a, b)
    && forall id :: id in a ==> a[id].current >= b[id].current && (a[id] != b[id] ==> FallGuard(nodes, a[id], known))
  }

  predicate HighScale(g: Scale) { g.cap > 0 && 10 * g.used >= 3 * g.cap }

  /** Not above 80 %, and not more capacity than rows. */
  predicate LowScale(g: Scale) {
    5 * g.used <= 4 * g.cap && g.cap % NODE_CAPACITY == 0 && g.cap <= NODE_CAPACITY * g.rows
  }

  lemma HighMoves(g: Scale, h: Scale, delta: int, calm: bool)
    requires HighScale(g) && Moves(g, h, delta, calm)
    ensures HighScale(h) && 0 <= delta <= 1 && h == g.(rows := g.rows + delta)
    ensures delta == 1 ==> 5 * g.used > 4 * g.cap
  {
  }

  lemma LowMoves(g: Scale, h: Scale, delta: int, calm: bool)
    requires LowScale(g) && Moves(g, h, delta, calm)
    ensures LowScale(h) && -1 <= delta <= 0 && h.used <= g.used && h.rows == g.rows + delta
    ensures calm ==> h.used == g.used
  {
  }

  lemma {:induction false} HighTurns(t: Tables, v: Tables, ids: seq<PoolId>, known: set<string>, calm: bool)
    requires Turns(t, v, ids, known, calm) && Well(t.nodes) && MinsHold(t.pools) && HighScale(ScaleOf(t))
    ensures RisesOnly(t.pools, v.pools, known)
    ensures var g, h := ScaleOf(t), ScaleOf(v);
      && h == g.(rows := h.rows) && g.rows <= h.rows <= g.rows + |ids|
      && (v.pools == t.pools ==> h == g)
      && (5 * g.used <= 4 * g.cap ==> v.pools == t.pools)
    decreases |ids|
  {
    hide Turn, Well, ScaleOf, Moves, HighScale, MinsHold, RisesOnly, Guarded;
    if ids == [] {
      NoneMoves(t, known);
    } else {
      var m :| Turn(t, m, ids[0], known, calm) && Turns(m, v, ids[1..], known, calm);
      MinOfTurn(t, m, ids[0], known, calm);
      var delta := TurnLaw(t, m, ids[0], known, calm);
      HighMoves(ScaleOf(t), ScaleOf(m), delta, calm);
      HighTurns(m, v, ids[1..], known, calm);
      RisesOn(t, m, v, ids[0], delta, known);
    }
  }

  lemma NoneMoves(t: Tables, known: set<string>)
    ensures RisesOnly(t.pools, t.pools, known) && FallsOnly(t.nodes, t.pools, t.pools, known)
    ensures OnlineKept(t.nodes, t.nodes)
  {
  }

  lemma RisesOn(t: Tables, m: Tables, v: Tables, id: PoolId, delta: int, known: set<string>)
    requires Counts(t, m, id, delta) && 0 <= delta <= 1 && Guarded(t.nodes, t.pools[id], known, delta)
    requires RisesOnly(m.pools, v.pools, known)
    ensures RisesOnly(t.pools, v.pools, known)
    ensures delta == 0 ==> m.pools == t.pools
    ensures delta == 1 ==> v.pools != t.pools
  {
    if delta == 0 {
      assert t.pools[id := t.pools[id].(current := t.pools[id].current + 0)] == t.pools;
    } else {
      assert v.pools[id].current > t.pools[id].current;
    }
  }

  lemma FallsOn(t: Tables, m: Tables, v: Tables, id: PoolId, delta: int, known: set<string>)
    requires Counts(t, m, id, delta) && -1 <= delta <= 0 && Guarded(t.nodes, t.pools[id], known, delta)
    requires FallsOnly(m.nodes, m.pools, v.pools, known) && OnlineKept(t.nodes, m.nodes)
    ensures FallsOnly(t.nodes, t.pools, v.pools, known)
    ensures delta == 0 ==> m.pools == t.pools
    ensures delta == -1 ==> v.pools != t.pools
  {
    if delta == 0 {
      assert t.pools[id := t.pools[id].(current := t.pools[id].current + 0)] == t.pools;
    } else {
      assert v.pools[id].current < t.pools[id].current;
    }
  }

  lemma MinOfTurn(t: Tables, u: Tables, id: PoolId, known: set<string>, calm: bool)
    requires Turn(t, u, id, known, calm) && MinsHold(t.pools)
    ensures id in t.pools && 0 <= t.pools[id].min
    ensures forall delta :: Counts(t, u, id, delta) ==> MinsHold(u.pools)
  {
  }

  lemma {:induction false} LowTurns(t: Tables, v: Tables, ids: seq<PoolId>, known: set<string>, calm: bool)
    requires Turns(t, v, ids, known, calm) && Well(t.nodes) && MinsHold(t.pools) && LowScale(ScaleOf(t))
    ensures FallsOnly(t.nodes, t.pools, v.pools, known)
    ensures var g, h := ScaleOf(t), ScaleOf(v);
      && LowScale(h) && h.used <= g.used && (calm ==> h.used == g.used)
      && (v.pools == t.pools ==> h.rows == g.rows)
    decreases |ids|
  {
    hide Turn, Well, ScaleOf, Moves, LowScale, MinsHold, FallsOnly, Guarded, OnlineKept;
    if ids == [] {
      NoneMoves(t, known);
    } else {
      var m :| Turn(t, m, ids[0], known, calm) && Turns(m, v, ids[1..], known, calm);
      MinOfTurn(t, m, ids[0], known, calm);
      var delta := TurnLaw(t, m, ids[0], known, calm);
      LowMoves(ScaleOf(t), ScaleOf(m), delta, calm);
      LowTurns(m, v, ids[1..], known, calm);
      FallsOn(t, m, v, ids[0], delta, known);
    }
  }

  // ----- from round to round

  predicate HighLoad(rows: nat, load: int) { rows > 0 && load >= 15 * rows }

  predicate LowLoad(rows: nat, load: int) { load <= 40 * rows }

  lemma SettledScale(t: Tables, load: int)
    requires Settled(t.nodes, load)
    ensures Well(t.nodes) && ScaleOf(t) == Scale(NODE_CAPACITY * |t.nodes|, load, |t.nodes|)
    ensures 0 <= load <= NODE_CAPACITY * |t.nodes|
  {
    SettledCapacity(t.nodes, load);
  }

  lemma SameRows(u: Tables, v: Tables, load: int)
    requires ReportsIn(v, u, load)
    ensures |u.nodes| == ScaleOf(v).rows && Settled(u.nodes, load) && u.pools == v.pools
  {
    assert |u.nodes| == |u.nodes.Keys| && |v.nodes| == |v.nodes.Keys|;
  }

  /** At 30 % or above no counter falls in a round; and the next round is there again, if the capacity was at
      least 30 for each pool or no counter rose. */
  lemma HighRound(t: Tables, u: Tables, ids: seq<PoolId>, known: set<string>, load: int, calm: bool)
    requires Settled(t.nodes, load) && MinsHold(t.pools)
    requires HighLoad(|t.nodes|, load) && Round(t, u, ids, known, load, calm)
    ensures RisesOnly(t.pools, u.pools, known) && Settled(u.nodes, load)
    ensures u.pools != t.pools ==> !LowLoad(|t.nodes|, load)
    ensures u.pools == t.pools || NODE_CAPACITY * |t.nodes| >= 30 * |ids| ==> HighLoad(|u.nodes|, load)
  {
    hide Turns, Settled, Well, ScaleOf, RisesOnly, ReportsIn;
    var v :| Turns(t, v, ids, known, calm) && ReportsIn(v, u, load);
    SettledScale(t, load);
    HighTurns(t, v, ids, known, calm);
    SameRows(u, v, load);
  }

  /** At or below 80 % no counter rises in any round; and the next round is there again, if no busy node was
      drained or no counter fell. */
  lemma LowRound(t: Tables, u: Tables, ids: seq<PoolId>, known: set<string>, load: int, calm: bool)
    requires Settled(t.nodes, load) && MinsHold(t.pools)
    requires LowLoad(|t.nodes|, load) && Round(t, u, ids, known, load, calm)
    ensures FallsOnly(t.nodes, t.pools, u.pools, known) && Settled(u.nodes, load)
    ensures calm || u.pools == t.pools ==> LowLoad(|u.nodes|, load)
  {
    hide Turns, Settled, Well, ScaleOf, FallsOnly, ReportsIn;
    var v :| Turns(t, v, ids, known, calm) && ReportsIn(v, u, load);
    SettledScale(t, load);
    LowTurns(t, v, ids, known, calm);
    SameRows(u, v, load);
  }

  // ----- which counters one round can move

  predicate Up(a: Pools, b: Pools, id: PoolId) { id in a && id in b && b[id].current > a[id].current }

  predicate Down(a: Pools, b: Pools, id: PoolId) { id in a && id in b && b[id].current < a[id].current }

  /** Above 80 % counters only rise, below 30 % they only fall, and in between nothing moves. */
  lemma RoundSorts(t: Tables, u: Tables, ids: seq<PoolId>, known: set<string>, load: int, calm: bool)
    requires Settled(t.nodes, load) && MinsHold(t.pools) && Round(t, u, ids, known, load, calm)
    ensures Settled(u.nodes, load) && Kept(t.pools, u.pools) && MinsHold(u.pools)
    ensures forall id :: Up(t.pools, u.pools, id) ==>
      load > 40 * |t.nodes| && RiseGuard(t.pools[id], known)
    ensures forall id :: Down(t.pools, u.pools, id) ==>
      load < 15 * |t.nodes| && FallGuard(t.nodes, t.pools[id], known)
  {
    hide Round, Settled, RiseGuard, FallGuard;
    if HighLoad(|t.nodes|, load) {
      HighRound(t, u, ids, known, load, calm);
    } else {
      SettledScale(t, load);
      LowRound(t, u, ids, known, load, calm);
      NoEmptyAmongNone(t.nodes, t.pools, known);
    }
  }

  lemma NoEmptyAmongNone(nodes: Nodes, pools: Pools, known: set<string>)
    ensures |nodes| == 0 ==> forall id :: id in pools ==> !FallGuard(nodes, pools[id], known)
  {
    assert |nodes| == 0 ==> nodes == map[];
  }

  ghost predicate CanRise(t: Tables, id: PoolId, known: set<string>, load: int) {
    exists ids, u :: Round(t, u, ids, known, load, false) && Up(t.pools, u.pools, id)
  }

  ghost predicate CanFall(t: Tables, id: PoolId, known: set<string>, load: int) {
    exists ids, u :: Round(t, u, ids, known, load, false) && Down(t.pools, u.pools, id)
  }

  lemma {:induction false} SomeListing(nodes: Nodes, ids: set<NodeId>) returns (list: seq<Snapshot>)
    requires ids <= OnlineIds(nodes)
    ensures Lists(list, nodes, ids) && SortedByRunning(list)
    decreases |ids|
  {
    hide Lists, SortedByRunning;
    if id :| id in ids {
      var rest := SomeListing(nodes, ids - {id});
      InsertExtends(rest, nodes, ids - {id}, id);
      assert ids - {id} + {id} == ids;
      list := InsertByRunning(rest, Snapshot(id, nodes[id]));
    } else {
      assert ids == {};
      NothingListed(nodes);
      list := [];
    }
  }

  lemma {:induction false} Bound(ids: set<NodeId>) returns (bound: NodeId)
    ensures forall id :: id in ids ==> id < bound
    decreases |ids|
  {
    bound := 0;
    if ids != {} {
      var id :| id in ids;
      bound := Bound(ids - {id});
      bound := if bound > id then bound else id + 1;
      assert forall i :: i in ids ==> i == id || i in ids - {id};
    }
  }

  lemma GrowRound(t: Tables, id: PoolId, known: set<string>, load: int)
    requires Settled(t.nodes, load) && id in t.pools && RiseGuard(t.pools[id], known) && load > 40 * |t.nodes|
    ensures CanRise(t, id, known, load)
  {
    hide Settled, Capacity, Used, Turn, Round;
    var newId := Bound(t.nodes.Keys);
    SettledCapacity(t.nodes, load);
    LoadOfSettled(t.nodes, load);
    GrowTurn(t, id, known, newId);
    var v := Tables(t.nodes[newId := ProvisionedRow(t.pools[id].provider, 0)], Counted(t.pools, id, 1));
    OneMoreSettled(t.nodes, load, newId, 0);
    var u := Tables(t.nodes[newId := NodeRow("", Online, NODE_CAPACITY, 0, 0)], v.pools);
    OneTurnRound(t, v, u, id, known, load);
    assert Up(t.pools, u.pools, id);
  }

  lemma OneTurnRound(t: Tables, v: Tables, u: Tables, id: PoolId, known: set<string>, load: int)
    requires Turn(t, v, id, known, false) && ReportsIn(v, u, load)
    ensures Round(t, u, [id], known, load, false)
  {
    hide Turn, ReportsIn;
    assert [id][1..] == [];
    assert Turns(v, v, [id][1..], known, false);
    assert Turns(t, v, [id], known, false);
  }

  lemma ShrinkRound(t: Tables, id: PoolId, known: set<string>, load: int)
    requires Settled(t.nodes, load) && MinsHold(t.pools) && id in t.pools
    requires FallGuard(t.nodes, t.pools[id], known) && load < 15 * |t.nodes|
    ensures CanFall(t, id, known, load)
  {
    hide Settled, Capacity, Used, Turn, Round, OnlineListing, HasEmpty;
    var newId := Bound(t.nodes.Keys);
    var list, n := EmptyTarget(t.nodes, t.pools[id].provider);
    SettledCapacity(t.nodes, load);
    LoadOfSettled(t.nodes, load);
    DeleteTurn(t, id, known, n, list, newId);
    EmptyNodeSpared(t.nodes, load, n);
    var u := Tables(t.nodes - {n}, Counted(t.pools, id, -1));
    OneTurnRound(t, u, u, id, known, load);
    assert Down(t.pools, u.pools, id);
  }

  lemma EmptyTarget(nodes: Nodes, provider: string) returns (list: seq<Snapshot>, n: NodeId)
    requires HasEmpty(nodes, provider)
    ensures OnlineListing(list, nodes) && n in nodes && nodes[n].running == 0 && nodes[n].provider == provider
    ensures Target(list, provider) == Some(Snapshot(n, nodes[n]))
  {
    list := SomeListing(nodes, OnlineIds(nodes));
    var e :| e in nodes && nodes[e].status == Online && nodes[e].provider == provider && nodes[e].running == 0;
    assert e in OnlineIds(nodes);
    assert Snapshot(e, nodes[e]) in list && Fits(Snapshot(e, nodes[e]), provider, true);
    TargetListed(list, nodes, provider);
    n := Target(list, provider).value.id;
  }

  /** A round can raise a counter if and only if utilisation is above 80 % and the pool, of a known provider, is
      below its maximum. */
  lemma RiseIff(t: Tables, id: PoolId, known: set<string>, load: int)
    requires Settled(t.nodes, load) && MinsHold(t.pools) && id in t.pools
    ensures CanRise(t, id, known, load) <==> load > 40 * |t.nodes| && RiseGuard(t.pools[id], known)
  {
    hide Settled, MinsHold, Round, Kept, RiseGuard;
    if CanRise(t, id, known, load) {
      var ids, u :| Round(t, u, ids, known, load, false) && Up(t.pools, u.pools, id);
      RoundSorts(t, u, ids, known, load, false);
    }
    if load > 40 * |t.nodes| && RiseGuard(t.pools[id], known) {
      GrowRound(t, id, known, load);
    }
  }

  /** A round can lower a counter if and only if utilisation is below 30 % and the pool, of a known provider, is
      above its minimum and the provider has an empty node. */
  lemma FallIff(t: Tables, id: PoolId, known: set<string>, load: int)
    requires Settled(t.nodes, load) && MinsHold(t.pools) && id in t.pools
    ensures CanFall(t, id, known, load) <==> load < 15 * |t.nodes| && FallGuard(t.nodes, t.pools[id], known)
  {
    hide Settled, MinsHold, Round, Kept, FallGuard;
    if CanFall(t, id, known, load) {
      var ids, u :| Round(t, u, ids, known, load, false) && Down(t.pools, u.pools, id);
      RoundSorts(t, u, ids, known, load, false);
    }
    if load < 15 * |t.nodes| && FallGuard(t.nodes, t.pools[id], known) {
      ShrinkRound(t, id, known, load);
    }
  }

  // ----- runs of rounds

  ghost predicate Rises(a: Pools, b: Pools) { exists id :: Up(a, b, id) }

  ghost predicate Falls(a: Pools, b: Pools) { exists id :: Down(a, b, id) }

  /** Any rounds under a constant load; `orders` are the pools evaluated in each. */
  ghost predicate IsRoundRun(ts: seq<Tables>, orders: seq<seq<PoolId>>, known: set<string>, load: int) {
    && |ts| == |orders| + 1
    && Settled(ts[0].nodes, load) && MinsHold(ts[0].pools)
    && forall i :: 0 <= i < |orders| ==> Round(ts[i], ts[i + 1], orders[i], known, load, false)
  }

  ghost predicate NoRise(ts: seq<Tables>) {
    forall i :: 0 <= i < |ts| - 1 ==> !Rises(ts[i].pools, ts[i + 1].pools)
  }

  ghost predicate NoFall(ts: seq<Tables>) {
    forall i :: 0 <= i < |ts| - 1 ==> !Falls(ts[i].pools, ts[i + 1].pools)
  }

  lemma {:induction false} RunSettles(ts: seq<Tables>, orders: seq<seq<PoolId>>, known: set<string>, load: int, i: nat)
    requires IsRoundRun(ts, orders, known, load) && i < |ts|
    ensures Settled(ts[i].nodes, load) && MinsHold(ts[i].pools) && Kept(ts[0].pools, ts[i].pools)
    decreases i
  {
    hide Settled, MinsHold, Round;
    if i > 0 {
      RunSettles(ts, orders, known, load, i - 1);
      assert Round(ts[i - 1], ts[i - 1 + 1], orders[i - 1], known, load, false);
      RoundSorts(ts[i - 1], ts[i], orders[i - 1], known, load, false);
    }
  }

  /** Any pools, evaluated in any order, draining whatever they find: over a whole run a counter rises only in a
      round that starts above 80 % and falls only in one that starts below 30 %.  So none rises while every round
      starts at or below 80 %, and none falls while every round starts at or above 30 %. */
  lemma CountersFollowLoad(ts: seq<Tables>, orders: seq<seq<PoolId>>, known: set<string>, load: int)
    requires IsRoundRun(ts, orders, known, load)
    ensures forall i :: 0 <= i < |orders| && Rises(ts[i].pools, ts[i + 1].pools) ==> load > 40 * |ts[i].nodes|
    ensures forall i :: 0 <= i < |orders| && Falls(ts[i].pools, ts[i + 1].pools) ==> load < 15 * |ts[i].nodes|
    ensures (forall i :: 0 <= i < |orders| ==> load <= 40 * |ts[i].nodes|) ==> NoRise(ts)
    ensures (forall i :: 0 <= i < |orders| ==> load >= 15 * |ts[i].nodes|) ==> NoFall(ts)
  {
    hide Settled, MinsHold, Round, Kept, Up, Down, RiseGuard, FallGuard;
    forall i | 0 <= i < |orders|
      ensures Rises(ts[i].pools, ts[i + 1].pools) ==> load > 40 * |ts[i].nodes|
      ensures Falls(ts[i].pools, ts[i + 1].pools) ==> load < 15 * |ts[i].nodes|
    {
      RunSettles(ts, orders, known, load, i);
      RoundSorts(ts[i], ts[i + 1], orders[i], known, load, false);
    }
  }

  // ----- runs that do not turn round

  /** A round in which a counter falls drains no busy node, and one in which a counter rises starts with capacity
      for 30 for each pool evaluated. */
  ghost predicate Gentle(ts: seq<Tables>, orders: seq<seq<PoolId>>, known: set<string>, load: int)
    requires |ts| == |orders| + 1
  {
    forall i :: 0 <= i < |orders| ==>
      && Round(ts[i], ts[i + 1], orders[i], known, load, Falls(ts[i].pools, ts[i + 1].pools))
      && (Rises(ts[i].pools, ts[i + 1].pools) ==> NODE_CAPACITY * |ts[i].nodes| >= 30 * |orders[i]|)
  }

  lemma Unmoved(a: Pools, b: Pools)
    requires Kept(a, b) && !Rises(a, b) && !Falls(a, b)
    ensures a == b
  {
    forall id | id in a ensures a[id] == b[id] {
      assert !Up(a, b, id) && !Down(a, b, id);
    }
  }

  lemma {:induction false} StaysHigh(ts: seq<Tables>, orders: seq<seq<PoolId>>, known: set<string>, load: int, i: nat)
    requires IsRoundRun(ts, orders, known, load) && Gentle(ts, orders, known, load) && i < |ts|
    requires HighLoad(|ts[0].nodes|, load)
    ensures HighLoad(|ts[i].nodes|, load)
    decreases i
  {
    hide Settled, MinsHold, Round, Kept, Rises, Falls, HighLoad;
    if i > 0 {
      var t, u := ts[i - 1], ts[i - 1 + 1];
      StaysHigh(ts, orders, known, load, i - 1);
      RunSettles(ts, orders, known, load, i - 1);
      HighRound(t, u, orders[i - 1], known, load, Falls(t.pools, u.pools));
      if !Rises(t.pools, u.pools) {
        NoneFell(t.pools, u.pools, known);
      }
    }
  }

  lemma NoneFell(a: Pools, b: Pools, known: set<string>)
    requires RisesOnly(a, b, known) && !Rises(a, b)
    ensures a == b
  {
    assert !Falls(a, b);
    Unmoved(a, b);
  }

  lemma {:induction false} StaysLow(ts: seq<Tables>, orders: seq<seq<PoolId>>, known: set<string>, load: int, i: nat)
    requires IsRoundRun(ts, orders, known, load) && Gentle(ts, orders, known, load) && i < |ts|
    requires LowLoad(|ts[0].nodes|, load)
    ensures LowLoad(|ts[i].nodes|, load)
    decreases i
  {
    hide Settled, MinsHold, Round, Kept, Rises, Falls, LowLoad;
    if i > 0 {
      var t, u := ts[i - 1], ts[i - 1 + 1];
      StaysLow(ts, orders, known, load, i - 1);
      RunSettles(ts, orders, known, load, i - 1);
      LowRound(t, u, orders[i - 1], known, load, Falls(t.pools, u.pools));
      if !Falls(t.pools, u.pools) {
        NoneRose(t.nodes, t.pools, u.pools, known);
      }
    }
  }

  lemma NoneRose(nodes: Nodes, a: Pools, b: Pools, known: set<string>)
    requires FallsOnly(nodes, a, b, known) && !Falls(a, b)
    ensures a == b
  {
    assert !Rises(a, b);
    Unmoved(a, b);
  }

  /** Over a gentle run counters never both rise and fall. */
  lemma PoolsNeverTurn(ts: seq<Tables>, orders: seq<seq<PoolId>>, known: set<string>, load: int)
    requires IsRoundRun(ts, orders, known, load) && Gentle(ts, orders, known, load)
    ensures NoRise(ts) || NoFall(ts)
  {
    hide IsRoundRun, Gentle, NoRise, NoFall;
    StartRoom(ts, orders, known, load);
    CountersFollowLoad(ts, orders, known, load);
    if LowLoad(|ts[0].nodes|, load) {
      forall i | 0 <= i < |orders| ensures load <= 40 * |ts[i].nodes| {
        StaysLow(ts, orders, known, load, i);
      }
    } else {
      forall i | 0 <= i < |orders| ensures load >= 15 * |ts[i].nodes| {
        StaysHigh(ts, orders, known, load, i);
      }
    }
  }

  lemma StartRoom(ts: seq<Tables>, orders: seq<seq<PoolId>>, known: set<string>, load: int)
    requires IsRoundRun(ts, orders, known, load)
    ensures |ts| == |orders| + 1 && load <= NODE_CAPACITY * |ts[0].nodes|
  {
    SettledScale(ts[0], load);
  }

  /** With one pool to a round every run is gentle. */
  lemma SinglePoolIsGentle(ts: seq<Tables>, orders: seq<seq<PoolId>>, known: set<string>, load: int)
    requires IsRoundRun(ts, orders, known, load) && forall i :: 0 <= i < |orders| ==> |orders[i]| == 1
    ensures Gentle(ts, orders, known, load)
  {
    hide Settled, MinsHold, Round, Rises, Falls;
    CountersFollowLoad(ts, orders, known, load);
    forall i | 0 <= i < |orders|
      ensures Round(ts[i], ts[i + 1], orders[i], known, load, Falls(ts[i].pools, ts[i + 1].pools))
      ensures Rises(ts[i].pools, ts[i + 1].pools) ==> NODE_CAPACITY * |ts[i].nodes| >= 30 * |orders[i]|
    {
      RunSettles(ts, orders, known, load, i);
      SettledScale(ts[i], load);
      OneTurnIsCalm(ts[i], ts[i + 1], orders[i], known, load);
    }
  }

  lemma OneTurnIsCalm(t: Tables, u: Tables, ids: seq<PoolId>, known: set<string>, load: int)
    requires Round(t, u, ids, known, load, false) && |ids| == 1
    ensures Round(t, u, ids, known, load, Falls(t.pools, u.pools))
  {
    hide PoolEvaluated, OnlineListing, Target, Capacity, Used, Settled;
    var v :| Turns(t, v, ids, known, false) && ReportsIn(v, u, load);
    if Falls(t.pools, u.pools) {
      var m :| Turn(t, m, ids[0], known, false) && Turns(m, v, ids[1..], known, false);
      assert ids[1..] == [];
      FallingTurnIsCalm(t, v, ids[0], known);
      assert Turns(v, v, ids[1..], known, true);
      assert Turns(t, v, ids, known, true);
    }
  }

  lemma FallingTurnIsCalm(t: Tables, v: Tables, id: PoolId, known: set<string>)
    requires Turn(t, v, id, known, false) && v.pools != t.pools
    ensures Turn(t, v, id, known, true)
  {
    hide OnlineListing, Target, Capacity, Used;
  }

  // ----- how often a counter moves

  /** The rounds of a run in which the pool's counter moves. */
  ghost function Changes(ts: seq<Tables>, id: PoolId): nat
    requires forall i :: 0 <= i < |ts| ==> id in ts[i].pools
  {
    if |ts| <= 1 then 0
    else (if ts[0].pools[id].current == ts[1].pools[id].current then 0 else 1) + Changes(ts[1..], id)
  }

  lemma {:induction false} RisingChanges(ts: seq<Tables>, id: PoolId)
    requires |ts| > 0 && (forall i :: 0 <= i < |ts| ==> id in ts[i].pools) && NoFall(ts)
    ensures Changes(ts, id) <= ts[|ts| - 1].pools[id].current - ts[0].pools[id].current
    decreases |ts|
  {
    if |ts| > 1 {
      var rest := ts[1..];
      forall i | 0 <= i < |rest| - 1 ensures !Falls(rest[i].pools, rest[i + 1].pools) {
        assert !Falls(ts[i + 1].pools, ts[i + 1 + 1].pools);
      }
      assert !Falls(ts[0].pools, ts[0 + 1].pools) && !Down(ts[0].pools, ts[1].pools, id);
      RisingChanges(rest, id);
    }
  }

  lemma {:induction false} FallingChanges(ts: seq<Tables>, id: PoolId)
    requires |ts| > 0 && (forall i :: 0 <= i < |ts| ==> id in ts[i].pools) && NoRise(ts)
    ensures Changes(ts, id) <= ts[0].pools[id].current - ts[|ts| - 1].pools[id].current
    decreases |ts|
  {
    if |ts| > 1 {
      var rest := ts[1..];
      forall i | 0 <= i < |rest| - 1 ensures !Rises(rest[i].pools, rest[i + 1].pools) {
        assert !Rises(ts[i + 1].pools, ts[i + 1 + 1].pools);
      }
      assert !Rises(ts[0].pools, ts[0 + 1].pools) && !Up(ts[0].pools, ts[1].pools, id);
      FallingChanges(rest, id);
    }
  }

  /** A counter that starts in its range moves in at most as many rounds of a one-way run as the range has steps. */
  lemma ChangesBounded(ts: seq<Tables>, orders: seq<seq<PoolId>>, known: set<string>, load: int, id: PoolId)
    requires IsRoundRun(ts, orders, known, load) && (NoRise(ts) || NoFall(ts))
    requires id in ts[0].pools && InRange(ts[0].pools[id])
    ensures forall i :: 0 <= i < |ts| ==> id in ts[i].pools
    ensures Changes(ts, id) <= ts[0].pools[id].max - ts[0].pools[id].min
  {
    hide Settled, MinsHold, Round, NoRise, NoFall, Changes;
    forall i | 0 <= i < |ts| ensures id in ts[i].pools {
      RunSettles(ts, orders, known, load, i);
    }
    RunSettles(ts, orders, known, load, |ts| - 1);
    if NoFall(ts) {
      RisingChanges(ts, id);
    } else {
      FallingChanges(ts, id);
    }
  }
}
