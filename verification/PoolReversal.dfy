/** A run of rounds in which the counters turn round: a busy node drained in the round that gives up the others. */
module PoolReversal {
  import opened Wrappers
  import opened ControlTables
  import opened ScalerRules
  import Hysteresis
  import opened PoolTurns
  import opened PoolRounds

  const BUSY := NodeRow("b", Online, NODE_CAPACITY, 41, 0)
  const EMPTY := NodeRow("a", Online, NODE_CAPACITY, 0, 0)
  const THREE := map[0 := CloudPool("b", 0, 9, 1), 1 := CloudPool("a", 0, 9, 1), 2 := CloudPool("a", 0, 9, 1)]
  const START := Tables(map[0 := BUSY, 1 := EMPTY, 2 := EMPTY], THREE)
  const PROVIDERS := {"a", "b"}

  lemma Totals(busy: Status, empties: set<NodeId>, nodes: Nodes)
    requires empties <= {1, 2} && nodes.Keys == {0} + empties
    requires nodes[0] == BUSY.(status := busy) && forall id :: id in empties ==> nodes[id] == EMPTY
    ensures Capacity(nodes) == (if busy == Online then NODE_CAPACITY else 0) + NODE_CAPACITY * |empties|
    ensures Used(nodes) == if busy == Online then 41 else 0
    decreases |empties|
  {
    if id :| id in empties {
      Totals(busy, empties - {id}, nodes - {id});
      DropRow(nodes, id);
      assert |empties - {id}| == |empties| - 1;
    } else {
      assert nodes - {0} == map[];
      DropRow(nodes, 0);
      assert Maxes(map[]) == map[] && Loads(map[]) == map[];
    }
  }

  /** One pool drains its only node, which carries the load, and the others give up their empty ones; when the
      drained node reports in again, it is overloaded and a pool grows: the counters turn round. */
  lemma BusyDrainTurns()
    ensures exists t, u, w, first, second ::
      && Round(t, u, first, PROVIDERS, 41, false) && Falls(t.pools, u.pools)
      && Round(u, w, second, PROVIDERS, 41, false) && Rises(u.pools, w.pools)
      && Hysteresis.Settled(t.nodes, 41) && MinsHold(t.pools) && NODE_CAPACITY * |u.nodes| >= 30 * |second|
  {
    hide Turns, Round, Falls, Rises, Hysteresis.Settled, MinsHold, PROVIDERS;
    var u := Tables(map[0 := BUSY], Counted(Counted(THREE, 1, -1), 2, -1));
    var w := Tables(map[0 := BUSY, 7 := EMPTY], Counted(u.pools, 1, 1));
    FallingRound(u);
    RisingRound(u, w);
    assert |u.nodes| == |u.nodes.Keys| == |{0}|;
    assert NODE_CAPACITY * |u.nodes| >= 30 * |[1]|;
  }

  const DRAINED := Tables(map[0 := BUSY.(status := Draining), 1 := EMPTY, 2 := EMPTY], THREE)
  const ONE_LEFT := Tables(map[0 := BUSY.(status := Draining), 2 := EMPTY], Counted(THREE, 1, -1))
  const NONE_LEFT := Tables(map[0 := BUSY.(status := Draining)], Counted(Counted(THREE, 1, -1), 2, -1))

  const ALL_THREE := [Snapshot(1, EMPTY), Snapshot(2, EMPTY), Snapshot(0, BUSY)]

  lemma BusyListing()
    ensures OnlineListing(ALL_THREE, START.nodes) && Target(ALL_THREE, "b") == Some(Snapshot(0, BUSY))
  {
    assert ALL_THREE[1..] == [Snapshot(2, EMPTY), Snapshot(0, BUSY)];
    assert ALL_THREE[0] in ALL_THREE && ALL_THREE[1] in ALL_THREE && ALL_THREE[2] in ALL_THREE;
  }

  lemma BusyTurn()
    ensures Turn(START, DRAINED, 0, PROVIDERS, false)
  {
    hide Turn, Capacity, Used, OnlineListing, Target;
    BusyListing();
    Totals(Online, {1, 2}, START.nodes);
    assert Out(START.nodes, 0, Draining) == DRAINED.nodes;
    DrainTurn(START, 0, PROVIDERS, 0, ALL_THREE, 7);
  }

  const THE_EMPTIES := [Snapshot(1, EMPTY), Snapshot(2, EMPTY)]

  lemma EmptyListing()
    ensures OnlineListing(THE_EMPTIES, DRAINED.nodes) && Target(THE_EMPTIES, "a") == Some(Snapshot(1, EMPTY))
  {
    assert THE_EMPTIES[0] in THE_EMPTIES && THE_EMPTIES[1] in THE_EMPTIES;
  }

  lemma EmptyTurn()
    ensures Turn(DRAINED, ONE_LEFT, 1, PROVIDERS, false)
  {
    hide Turn, Capacity, Used, OnlineListing, Target;
    EmptyListing();
    Totals(Draining, {1, 2}, DRAINED.nodes);
    assert DRAINED.nodes - {1} == ONE_LEFT.nodes;
    DeleteTurn(DRAINED, 1, PROVIDERS, 1, THE_EMPTIES, 7);
  }

  lemma LastTurn()
    ensures Turn(ONE_LEFT, NONE_LEFT, 2, PROVIDERS, false)
  {
    hide Turn, Capacity, Used;
    Totals(Draining, {2}, ONE_LEFT.nodes);
    assert ONE_LEFT.nodes - {2} == NONE_LEFT.nodes;
    DeleteTurn(ONE_LEFT, 2, PROVIDERS, 2, [Snapshot(2, EMPTY)], 7);
  }

  lemma ThreeTurns()
    ensures Turns(START, NONE_LEFT, [0, 1, 2], PROVIDERS, false)
  {
    hide Turn, START, DRAINED, ONE_LEFT, NONE_LEFT, PROVIDERS;
    BusyTurn();
    EmptyTurn();
    LastTurn();
    var ids: seq<PoolId> := [0, 1, 2];
    assert ids[1..] == [1, 2] && ids[1..][1..] == [2] && ids[1..][1..][1..] == [];
    assert Turns(NONE_LEFT, NONE_LEFT, ids[1..][1..][1..], PROVIDERS, false);
    assert Turns(ONE_LEFT, NONE_LEFT, ids[1..][1..], PROVIDERS, false);
    assert Turns(DRAINED, NONE_LEFT, ids[1..], PROVIDERS, false);
  }

  lemma StartsSettled()
    ensures Hysteresis.Settled(START.nodes, 41) && MinsHold(START.pools)
  {
    hide Used;
    Totals(Online, {1, 2}, START.nodes);
  }

  lemma FallingRound(u: Tables)
    requires u == Tables(map[0 := BUSY], Counted(Counted(THREE, 1, -1), 2, -1))
    ensures Round(START, u, [0, 1, 2], PROVIDERS, 41, false) && Falls(START.pools, u.pools)
    ensures Hysteresis.Settled(START.nodes, 41) && MinsHold(START.pools)
  {
    hide Turns, Capacity, Used;
    ThreeTurns();
    StartsSettled();
    Totals(Online, {}, u.nodes);
    assert NONE_LEFT.nodes.Keys == {0};
    assert ReportsIn(NONE_LEFT, u, 41);
    assert Down(START.pools, u.pools, 1);
  }

  lemma RisingRound(u: Tables, w: Tables)
    requires u == Tables(map[0 := BUSY], Counted(Counted(THREE, 1, -1), 2, -1))
    requires w == Tables(map[0 := BUSY, 7 := EMPTY], Counted(u.pools, 1, 1))
    ensures Round(u, w, [1], PROVIDERS, 41, false) && Rises(u.pools, w.pools)
  {
    hide Turn, Capacity, Used;
    Totals(Online, {}, u.nodes);
    GrowTurn(u, 1, PROVIDERS, 7);
    var v := Tables(u.nodes[7 := ProvisionedRow("a", 0)], Counted(u.pools, 1, 1));
    SetRow(u.nodes, 7, EMPTY);
    assert u.nodes[7 := EMPTY] == w.nodes;
    assert Turns(v, v, [], PROVIDERS, false);
    assert [1][1..] == [];
    assert Turns(u, v, [1], PROVIDERS, false);
    assert ReportsIn(v, w, 41);
    assert Up(u.pools, w.pools, 1);
  }
}
