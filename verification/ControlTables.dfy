/** controlplane/db.go: the node and pool tables.  A SQL statement is one atomic step. */
module ControlTables {
  import opened Aggregates

  type NodeId = nat
  type PoolId = nat

  datatype Status = Provisioning | Online | Draining | Offline | Terminating

  /** `lastSeen` is in whole seconds: the column holds RFC 3339 text without a fraction. */
  datatype NodeRow = NodeRow(provider: string, status: Status, max: int, running: int, lastSeen: int)

  datatype CloudPool = CloudPool(provider: string, min: int, max: int, current: int)

  /** A row as some query returned it, with its key. */
  datatype Snapshot = Snapshot(id: NodeId, row: NodeRow)

  datatype PoolSnapshot = PoolSnapshot(id: PoolId, pool: CloudPool)

  type Nodes = map<NodeId, NodeRow>
  type Pools = map<PoolId, CloudPool>

  datatype Tables = Tables(nodes: Nodes, pools: Pools)

  /** Clock readings are in nanoseconds; formatting one drops the fraction of its second. */
  const SECOND := 1_000_000_000

  function Seconds(now: int): int { now / SECOND }

  /** The room every provisioned machine is given. */
  const NODE_CAPACITY := 50

  function ProvisionedRow(provider: string, now: int): NodeRow {
    NodeRow(provider, Provisioning, NODE_CAPACITY, 0, Seconds(now))
  }

  function RegisteredRow(max: int, now: int): NodeRow {
    NodeRow("custom", Online, max, 0, Seconds(now))
  }

  // ----- statements

  /** A conflict on the key updates the status, the load and the time only. */
  function Upserted(nodes: Nodes, id: NodeId, row: NodeRow): Nodes {
    if id in nodes then
      nodes[id := nodes[id].(status := row.status, running := row.running, lastSeen := row.lastSeen)]
    else nodes[id := row]
  }

  function WithStatus(nodes: Nodes, id: NodeId, status: Status): Nodes {
    if id in nodes then nodes[id := nodes[id].(status := status)] else nodes
  }

  function WithHeartbeat(nodes: Nodes, id: NodeId, running: int, now: int): Nodes {
    if id in nodes then nodes[id := nodes[id].(running := running, lastSeen := now, status := Online)] else nodes
  }

  /** A conflict on the key leaves the provider alone. */
  function PoolUpserted(pools: Pools, id: PoolId, pool: CloudPool): Pools {
    if id in pools then pools[id := pool.(provider := pools[id].provider)] else pools[id := pool]
  }

  // ----- sums over rows

  function MaxOf(r: NodeRow): int { if r.status == Online then r.max else 0 }

  function LoadOf(r: NodeRow): int { if r.status == Online then r.running else 0 }

  function One(r: NodeRow, provider: string): int { if r.provider == provider then 1 else 0 }

  function Share(p: CloudPool, provider: string): int { if p.provider == provider then p.current else 0 }

  ghost function Maxes(nodes: Nodes): map<NodeId, int> { map id | id in nodes :: MaxOf(nodes[id]) }

  ghost function Loads(nodes: Nodes): map<NodeId, int> { map id | id in nodes :: LoadOf(nodes[id]) }

  ghost function Ones(nodes: Nodes, provider: string): map<NodeId, int> {
    map id | id in nodes :: One(nodes[id], provider)
  }

  ghost function Shares(pools: Pools, provider: string): map<PoolId, int> {
    map id | id in pools :: Share(pools[id], provider)
  }

  /** The two sums of TotalCapacity: over the online rows. */
  ghost function Capacity(nodes: Nodes): int { Sum(Maxes(nodes)) }

  ghost function Used(nodes: Nodes): int { Sum(Loads(nodes)) }

  /** How many rows a provider has, and how many nodes its pools count. */
  ghost function RowsOf(nodes: Nodes, provider: string): int { Sum(Ones(nodes, provider)) }

  ghost function CountedFor(pools: Pools, provider: string): int { Sum(Shares(pools, provider)) }

  /** Rows of a provider that no pool counts. */
  ghost function Balance(t: Tables, provider: string): int {
    RowsOf(t.nodes, provider) - CountedFor(t.pools, provider)
  }

  lemma SetRow(nodes: Nodes, id: NodeId, row: NodeRow)
    ensures Capacity(nodes[id := row]) == Capacity(nodes) - (if id in nodes then MaxOf(nodes[id]) else 0) + MaxOf(row)
    ensures Used(nodes[id := row]) == Used(nodes) - (if id in nodes then LoadOf(nodes[id]) else 0) + LoadOf(row)
  {
    SumUpdate(Maxes(nodes), id, MaxOf(row));
    SumUpdate(Loads(nodes), id, LoadOf(row));
    assert Maxes(nodes[id := row]) == Maxes(nodes)[id := MaxOf(row)];
    assert Loads(nodes[id := row]) == Loads(nodes)[id := LoadOf(row)];
  }

  lemma DropRow(nodes: Nodes, id: NodeId)
    requires id in nodes
    ensures Capacity(nodes - {id}) == Capacity(nodes) - MaxOf(nodes[id])
    ensures Used(nodes - {id}) == Used(nodes) - LoadOf(nodes[id])
  {
    SumRemove(Maxes(nodes), id);
    SumRemove(Loads(nodes), id);
    assert Maxes(nodes - {id}) == Maxes(nodes) - {id};
    assert Loads(nodes - {id}) == Loads(nodes) - {id};
  }

  lemma SetRowProvider(nodes: Nodes, id: NodeId, row: NodeRow, provider: string)
    ensures RowsOf(nodes[id := row], provider)
      == RowsOf(nodes, provider) - (if id in nodes then One(nodes[id], provider) else 0) + One(row, provider)
  {
    SumUpdate(Ones(nodes, provider), id, One(row, provider));
    assert Ones(nodes[id := row], provider) == Ones(nodes, provider)[id := One(row, provider)];
  }

  lemma DropRowProvider(nodes: Nodes, id: NodeId, provider: string)
    requires id in nodes
    ensures RowsOf(nodes - {id}, provider) == RowsOf(nodes, provider) - One(nodes[id], provider)
  {
    SumRemove(Ones(nodes, provider), id);
    assert Ones(nodes - {id}, provider) == Ones(nodes, provider) - {id};
  }

  lemma SetPool(pools: Pools, id: PoolId, pool: CloudPool, provider: string)
    ensures CountedFor(pools[id := pool], provider)
      == CountedFor(pools, provider) - (if id in pools then Share(pools[id], provider) else 0) + Share(pool, provider)
  {
    SumUpdate(Shares(pools, provider), id, Share(pool, provider));
    assert Shares(pools[id := pool], provider) == Shares(pools, provider)[id := Share(pool, provider)];
  }

  /** Every row runs between none and all of the sandboxes it has room for. */
  ghost predicate RowsBounded(nodes: Nodes) {
    forall id :: id in nodes ==> 0 <= nodes[id].running <= nodes[id].max
  }

  lemma SetKeepsBounds(nodes: Nodes, id: NodeId, row: NodeRow)
    requires RowsBounded(nodes)
    ensures RowsBounded(nodes[id := row]) <==> 0 <= row.running <= row.max
  {
    assert id in nodes[id := row];
  }

  /** Then utilisation is a fraction: nothing used beyond the capacity. */
  lemma UsedWithinCapacity(nodes: Nodes)
    requires RowsBounded(nodes)
    ensures 0 <= Used(nodes) <= Capacity(nodes)
  {
    var zero := map id | id in nodes :: 0;
    SumConstant(zero, 0);
    SumMonotone(zero, Loads(nodes));
    SumMonotone(Loads(nodes), Maxes(nodes));
  }

  predicate InRange(pool: CloudPool) { pool.min <= pool.current <= pool.max }

  /** No pool has a negative minimum. */
  ghost predicate MinsHold(pools: Pools) {
    forall id :: id in pools ==> 0 <= pools[id].min
  }

  // ----- listings

  predicate SortedByRunning(list: seq<Snapshot>) {
    forall i, j :: 0 <= i < j < |list| ==> list[i].row.running <= list[j].row.running
  }

  predicate DistinctIds(list: seq<Snapshot>) {
    forall i, j :: 0 <= i < j < |list| ==> list[i].id != list[j].id
  }

  /** The rows of `ids`, each once. */
  ghost predicate Lists(list: seq<Snapshot>, nodes: Nodes, ids: set<NodeId>) {
    && (forall i :: 0 <= i < |list| ==> list[i].id in ids && list[i].id in nodes && list[i].row == nodes[list[i].id])
    && DistinctIds(list)
    && (forall id :: id in ids ==> id in nodes && Snapshot(id, nodes[id]) in list)
  }

  ghost function OnlineIds(nodes: Nodes): set<NodeId> {
    set id | id in nodes && nodes[id].status == Online
  }

  /** What `SELECT … WHERE status = 'online' ORDER BY running_sandboxes ASC` may return. */
  ghost predicate OnlineListing(list: seq<Snapshot>, nodes: Nodes) {
    Lists(list, nodes, OnlineIds(nodes)) && SortedByRunning(list)
  }

  function InsertByRunning(list: seq<Snapshot>, s: Snapshot): (r: seq<Snapshot>)
    ensures |r| == |list| + 1 && forall x :: x in r <==> x in list || x == s
    ensures forall i :: 0 <= i < |r| && r[i] != s ==> r[i] in list
  {
    if list == [] || s.row.running <= list[0].row.running then [s] + list
    else [list[0]] + InsertByRunning(list[1..], s)
  }

  lemma {:induction false} InsertKeepsSorted(list: seq<Snapshot>, s: Snapshot)
    requires SortedByRunning(list)
    ensures SortedByRunning(InsertByRunning(list, s))
  {
    if list != [] && s.row.running > list[0].row.running {
      InsertKeepsSorted(list[1..], s);
      var r := InsertByRunning(list[1..], s);
      assert forall i :: 0 <= i < |r| ==> r[i] == s || r[i] in list[1..];
    }
  }

  lemma ConsKeepsDistinct(s: Snapshot, list: seq<Snapshot>)
    requires DistinctIds(list)
    requires forall x :: x in list ==> x.id != s.id
    ensures DistinctIds([s] + list)
  {
  }

  lemma {:induction false} InsertKeepsDistinct(list: seq<Snapshot>, s: Snapshot)
    requires DistinctIds(list)
    requires forall x :: x in list ==> x.id != s.id
    ensures DistinctIds(InsertByRunning(list, s))
  {
    if list == [] || s.row.running <= list[0].row.running {
      ConsKeepsDistinct(s, list);
    } else {
      var rest := list[1..];
      forall x | x in rest ensures x in list && x.id != list[0].id {
        var k :| 0 <= k < |rest| && rest[k] == x;
        assert list[k + 1] == x;
      }
      InsertKeepsDistinct(rest, s);
      ConsKeepsDistinct(list[0], InsertByRunning(rest, s));
    }
  }

  lemma InsertExtends(list: seq<Snapshot>, nodes: Nodes, ids: set<NodeId>, id: NodeId)
    requires Lists(list, nodes, ids) && SortedByRunning(list) && id in nodes && id !in ids
    ensures var r := InsertByRunning(list, Snapshot(id, nodes[id]));
      Lists(r, nodes, ids + {id}) && SortedByRunning(r)
  {
    var s := Snapshot(id, nodes[id]);
    var r := InsertByRunning(list, s);
    InsertKeepsSorted(list, s);
    InsertKeepsDistinct(list, s);
    assert forall i :: 0 <= i < |r| ==> r[i] in r;
  }

  ghost predicate ListsPools(list: seq<PoolSnapshot>, pools: Pools, ids: set<PoolId>) {
    && (forall i :: 0 <= i < |list| ==> list[i].id in ids && list[i].id in pools && list[i].pool == pools[list[i].id])
    && (forall i, j :: 0 <= i < j < |list| ==> list[i].id != list[j].id)
    && (forall id :: id in ids ==> id in pools && PoolSnapshot(id, pools[id]) in list)
  }

  class Database {
    var nodes: Nodes
    var pools: Pools

    ghost function View(): Tables
      reads this
    {
      Tables(nodes, pools)
    }

    constructor ()
      ensures nodes == map[] && pools == map[]
    {
      nodes, pools := map[], map[];
    }

    method UpsertNode(id: NodeId, row: NodeRow, ok: bool)
      modifies this`nodes
      ensures nodes == if ok then Upserted(old(nodes), id, row) else old(nodes)
      ensures ok && id !in old(nodes) ==> nodes == old(nodes)[id := row]
      ensures ok && id in old(nodes) ==> var was := old(nodes)[id];
        nodes == old(nodes)[id := NodeRow(was.provider, row.status, was.max, row.running, row.lastSeen)]
    {
      if ok {
        if id in nodes {
          var r := nodes[id];
          nodes := nodes[id := NodeRow(r.provider, row.status, r.max, row.running, row.lastSeen)];
        } else {
          nodes := nodes[id := row];
        }
      }
    }

    method UpdateNodeStatus(id: NodeId, status: Status, ok: bool)
      modifies this`nodes
      ensures nodes == if ok then WithStatus(old(nodes), id, status) else old(nodes)
      ensures !ok || id !in old(nodes) ==> nodes == old(nodes)
      ensures ok && id in old(nodes) ==> var was := old(nodes)[id];
        nodes == old(nodes)[id := NodeRow(was.provider, status, was.max, was.running, was.lastSeen)]
    {
      if ok && id in nodes {
        nodes := nodes[id := nodes[id].(status := status)];
      }
    }

    method UpdateNodeHeartbeat(id: NodeId, running: int, now: int, ok: bool)
      modifies this`nodes
      ensures nodes == if ok then WithHeartbeat(old(nodes), id, running, now) else old(nodes)
      ensures !ok || id !in old(nodes) ==> nodes == old(nodes)
      ensures ok && id in old(nodes) ==> var was := old(nodes)[id];
        nodes == old(nodes)[id := NodeRow(was.provider, Online, was.max, running, now)]
    {
      if ok && id in nodes {
        nodes := nodes[id := nodes[id].(running := running, lastSeen := now, status := Online)];
      }
    }

    method DeleteNode(id: NodeId, ok: bool)
      modifies this`nodes
      ensures nodes == if ok then old(nodes) - {id} else old(nodes)
    {
      if ok {
        nodes := nodes - {id};
      }
    }

    method UpsertCloudPool(id: PoolId, pool: CloudPool, ok: bool)
      modifies this`pools
      ensures pools == if ok then PoolUpserted(old(pools), id, pool) else old(pools)
      ensures ok && id !in old(pools) ==> pools == old(pools)[id := pool]
      ensures ok && id in old(pools) ==>
        pools == old(pools)[id := CloudPool(old(pools)[id].provider, pool.min, pool.max, pool.current)]
    {
      if ok {
        if id in pools {
          pools := pools[id := CloudPool(pools[id].provider, pool.min, pool.max, pool.current)];
        } else {
          pools := pools[id := pool];
        }
      }
    }

    /** All rows, in some order. */
    method ListNodes() returns (list: seq<Snapshot>)
      ensures Lists(list, nodes, nodes.Keys)
    {
      list := [];
      var rest := nodes.Keys;
      while rest != {}
        invariant rest <= nodes.Keys && Lists(list, nodes, nodes.Keys - rest)
        decreases rest
      {
        var id :| id in rest;
        assert nodes.Keys - (rest - {id}) == nodes.Keys - rest + {id};
        list := list + [Snapshot(id, nodes[id])];
        rest := rest - {id};
      }
      assert nodes.Keys - {} == nodes.Keys;
    }

    method ListCloudPools() returns (list: seq<PoolSnapshot>)
      ensures ListsPools(list, pools, pools.Keys)
    {
      list := [];
      var rest := pools.Keys;
      while rest != {}
        invariant rest <= pools.Keys && ListsPools(list, pools, pools.Keys - rest)
        decreases rest
      {
        var id :| id in rest;
        assert pools.Keys - (rest - {id}) == pools.Keys - rest + {id};
        list := list + [PoolSnapshot(id, pools[id])];
        rest := rest - {id};
      }
      assert pools.Keys - {} == pools.Keys;
    }

    method ListOnlineNodes() returns (list: seq<Snapshot>)
      ensures OnlineListing(list, nodes)
      ensures forall id :: id in nodes ==> (Snapshot(id, nodes[id]) in list <==> nodes[id].status == Online)
      ensures forall i, j :: 0 <= i < j < |list| ==>
        list[i].id != list[j].id && list[i].row.running <= list[j].row.running
    {
      hide Lists, SortedByRunning;
      list := [];
      var rest := nodes.Keys;
      NothingListed(nodes);
      assert OnlineIds(nodes) - rest == {};
      while rest != {}
        invariant rest <= nodes.Keys
        invariant Lists(list, nodes, OnlineIds(nodes) - rest) && SortedByRunning(list)
        decreases rest
      {
        var id :| id in rest;
        if nodes[id].status == Online {
          InsertExtends(list, nodes, OnlineIds(nodes) - rest, id);
          assert OnlineIds(nodes) - (rest - {id}) == OnlineIds(nodes) - rest + {id};
          list := InsertByRunning(list, Snapshot(id, nodes[id]));
        } else {
          assert OnlineIds(nodes) - (rest - {id}) == OnlineIds(nodes) - rest;
        }
        rest := rest - {id};
      }
      assert OnlineIds(nodes) - {} == OnlineIds(nodes);
      ListingMeans(list, nodes);
    }

    method TotalCapacity() returns (total: int, used: int)
      ensures total == Capacity(nodes) && used == Used(nodes)
    {
      total, used := 0, 0;
      var rest := nodes;
      while rest != map[]
        invariant total + Capacity(rest) == Capacity(nodes)
        invariant used + Used(rest) == Used(nodes)
        decreases |rest|
      {
        var id :| id in rest;
        DropRow(rest, id);
        total, used := total + MaxOf(rest[id]), used + LoadOf(rest[id]);
        rest := rest - {id};
      }
      assert Maxes(rest) == map[] && Loads(rest) == map[];
    }
  }

  lemma ListingMeans(list: seq<Snapshot>, nodes: Nodes)
    requires OnlineListing(list, nodes)
    ensures forall id :: id in nodes ==> (Snapshot(id, nodes[id]) in list <==> nodes[id].status == Online)
    ensures forall i, j :: 0 <= i < j < |list| ==>
      list[i].id != list[j].id && list[i].row.running <= list[j].row.running
  {
  }

  lemma NothingListed(nodes: Nodes)
    ensures Lists([], nodes, {}) && SortedByRunning([])
  {
  }
}
