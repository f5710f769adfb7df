/** controlplane/handlers.go: placing a sandbox, and the rows nodes get. */
module Scheduler {
  import opened ControlTables

  type SandboxId = nat

  datatype Request = Request(template: string, vcpus: int, memoryMB: int, timeoutSec: int)

  datatype SandboxRow = SandboxRow(node: NodeId, template: string, vcpus: int, memoryMB: int, timeoutSec: int)

  datatype Pick = NoNodes | AtCapacity | Picked(target: Snapshot)

  datatype Answer = NoCapacity(nodesOnline: bool) | NodeError | Created(id: SandboxId, node: NodeId)

  ghost predicate HasRoom(nodes: Nodes, id: NodeId) {
    id in nodes && nodes[id].status == Online && nodes[id].running < nodes[id].max
  }

  /** What a pick promises: a least loaded online node with room, or the reason there is none. */
  ghost predicate Answers(pick: Pick, nodes: Nodes) {
    match pick
    case NoNodes => OnlineIds(nodes) == {}
    case AtCapacity => OnlineIds(nodes) != {} && forall id :: !HasRoom(nodes, id)
    case Picked(t) =>
      && HasRoom(nodes, t.id) && t.row == nodes[t.id]
      && forall id :: HasRoom(nodes, id) ==> t.row.running <= nodes[id].running
  }

  /** Two picks on the same table agree on the answer and on the load they chose. */
  lemma AnswersAgree(a: Pick, b: Pick, nodes: Nodes)
    requires Answers(a, nodes) && Answers(b, nodes)
    ensures a.Picked? <==> b.Picked?
    ensures a.NoNodes? <==> b.NoNodes?
    ensures a.Picked? ==> a.target.row.running == b.target.row.running
  {
    if a.Picked? {
      assert HasRoom(nodes, a.target.id) && a.target.id in OnlineIds(nodes);
    }
    if b.Picked? {
      assert HasRoom(nodes, b.target.id) && b.target.id in OnlineIds(nodes);
    }
  }

  /** The scan over the sorted rows, stopping at the first with room. */
  method PickNode(list: seq<Snapshot>, ghost nodes: Nodes) returns (pick: Pick)
    requires OnlineListing(list, nodes)
    ensures Answers(pick, nodes)
    ensures pick.NoNodes? <==> forall id :: id in nodes ==> nodes[id].status != Online
    ensures pick.Picked? <==>
      exists id :: id in nodes && nodes[id].status == Online && nodes[id].running < nodes[id].max
    ensures pick.Picked? ==>
      && pick.target.id in nodes && nodes[pick.target.id] == pick.target.row
      && pick.target.row.status == Online && pick.target.row.running < pick.target.row.max
      && forall id :: id in nodes && nodes[id].status == Online && nodes[id].running < nodes[id].max ==>
        pick.target.row.running <= nodes[id].running
  {
    pick := if |list| == 0 then NoNodes else AtCapacity;
    if |list| > 0 {
      assert list[0].id in OnlineIds(nodes);
    }
    var i := 0;
    while i < |list|
      invariant 0 <= i <= |list|
      invariant pick == if |list| == 0 then NoNodes else AtCapacity
      invariant forall k :: 0 <= k < i ==> !HasRoom(nodes, list[k].id)
    {
      if list[i].row.running < list[i].row.max {
        pick := Picked(list[i]);
        break;
      }
      i := i + 1;
    }
    forall id | HasRoom(nodes, id) ensures pick.Picked? && pick.target.row.running <= nodes[id].running {
      assert id in OnlineIds(nodes);
      var k :| 0 <= k < |list| && list[k] == Snapshot(id, nodes[id]);
      assert k >= i;
    }
  }

  /** Recording one more sandbox on a node with room: one more used, the same capacity, all rows still in bounds. */
  lemma OneMore(nodes: Nodes, id: NodeId, now: int)
    requires HasRoom(nodes, id)
    ensures var after := WithHeartbeat(nodes, id, nodes[id].running + 1, now);
      && Used(after) == Used(nodes) + 1
      && Capacity(after) == Capacity(nodes)
      && (RowsBounded(nodes) ==> RowsBounded(after))
      && after - {id} == nodes - {id}
  {
    SetRow(nodes, id, nodes[id].(running := nodes[id].running + 1, lastSeen := now, status := Online));
  }

  /** The row recorded for a request; parameters left out or not positive take their defaults. */
  function Filled(request: Request, node: NodeId): SandboxRow {
    SandboxRow(node, if request.template == "" then "base" else request.template, OrDefault(request.vcpus, 1),
               OrDefault(request.memoryMB, 512), OrDefault(request.timeoutSec, 300))
  }

  function OrDefault(value: int, default: int): int { if value > 0 then value else default }

  function Requested(provider: string): string { if provider == "" then "aws" else provider }

  class Server {
    const db: Database
    var sandboxes: map<SandboxId, SandboxRow>

    constructor (db: Database)
      ensures this.db == db && sandboxes == map[]
    {
      this.db, sandboxes := db, map[];
    }

    /** `forwardOk`, `recordOk`, `countOk`: whether the node, the sandbox insert and the count update succeed. */
    method HandleCreateSandbox(request: Request, newId: SandboxId, listOk: bool, forwardOk: bool,
                               recordOk: bool, countOk: bool, now: int)
      returns (answer: Answer, ghost pick: Pick)
      modifies this`sandboxes, db`nodes
      ensures Answers(pick, old(db.nodes))
      ensures answer == if !listOk then NoCapacity(false) else match pick {
        case NoNodes => NoCapacity(false)
        case AtCapacity => NoCapacity(true)
        case Picked(t) => if forwardOk then Created(newId, t.id) else NodeError
      }
      ensures answer == NoCapacity(true) <==>
        (&& listOk && (exists id :: id in old(db.nodes) && old(db.nodes)[id].status == Online)
         && forall id :: id in old(db.nodes) && old(db.nodes)[id].status == Online ==>
              old(db.nodes)[id].running >= old(db.nodes)[id].max)
      ensures answer.Created? <==>
        (&& listOk && forwardOk
         && exists id :: id in old(db.nodes) && old(db.nodes)[id].status == Online
              && old(db.nodes)[id].running < old(db.nodes)[id].max)
      ensures answer.Created? ==>
        && answer.node in old(db.nodes) && old(db.nodes)[answer.node].status == Online
        && old(db.nodes)[answer.node].running < old(db.nodes)[answer.node].max
        && forall id :: id in old(db.nodes) ==>
          old(db.nodes)[id].status != Online || old(db.nodes)[id].running >= old(db.nodes)[id].max
          || old(db.nodes)[answer.node].running <= old(db.nodes)[id].running
      ensures !answer.Created? ==> db.nodes == old(db.nodes) && sandboxes == old(sandboxes)
      ensures answer.Created? ==>
        && Used(db.nodes) == Used(old(db.nodes)) + (if countOk then 1 else 0)
        && Capacity(db.nodes) == Capacity(old(db.nodes))
        && (RowsBounded(old(db.nodes)) ==> RowsBounded(db.nodes))
        && db.nodes - {answer.node} == old(db.nodes) - {answer.node}
      ensures answer.Created? ==> pick.Picked? && answer == Created(newId, pick.target.id)
      ensures answer.Created? && countOk ==>
        db.nodes == WithHeartbeat(old(db.nodes), answer.node, pick.target.row.running + 1, Seconds(now))
      ensures answer.Created? ==>
        sandboxes == if recordOk && newId !in old(sandboxes) then old(sandboxes)[newId := Filled(request, answer.node)]
                     else old(sandboxes)
      ensures answer.Created? && recordOk && newId !in old(sandboxes) ==>
        var row := sandboxes[newId];
        && row.node == answer.node
        && row.template == (if request.template == "" then "base" else request.template)
        && row.vcpus == (if request.vcpus > 0 then request.vcpus else 1)
        && row.memoryMB == (if request.memoryMB > 0 then request.memoryMB else 512)
        && row.timeoutSec == (if request.timeoutSec > 0 then request.timeoutSec else 300)
      ensures answer.Created? && countOk ==>
        && answer.node in old(db.nodes) && answer.node in db.nodes
        && var was := old(db.nodes)[answer.node];
        db.nodes[answer.node] == NodeRow(was.provider, Online, was.max, was.running + 1, now / 1_000_000_000)
    {
      hide Answers, OnlineListing, RowsBounded, Capacity, Used;
      var list := db.ListOnlineNodes();
      var choice := PickNode(list, db.nodes);
      pick := choice;
      if !listOk || choice.NoNodes? {
        return NoCapacity(false), pick;
      }
      if choice.AtCapacity? {
        return NoCapacity(true), pick;
      }
      if !forwardOk {
        return NodeError, pick;
      }
      var target := choice.target;
      if recordOk && newId !in sandboxes {
        sandboxes := sandboxes[newId := Filled(request, target.id)];
      }
      OneMore(db.nodes, target.id, Seconds(now));
      db.UpdateNodeHeartbeat(target.id, target.row.running + 1, Seconds(now), countOk);
      answer := Created(newId, target.id);
    }

    /** The answer is positive even when the row could not be saved. */
    method HandleProvisionNode(provider: string, known: bool, callOk: bool, insertOk: bool, newId: NodeId, now: int)
      returns (ok: bool)
      requires newId !in db.nodes
      modifies db`nodes
      ensures ok == (known && callOk)
      ensures var asked := if provider == "" then "aws" else provider;
        ok && insertOk ==>
          newId in db.nodes && db.nodes[newId] == NodeRow(asked, Provisioning, 50, 0, now / 1_000_000_000)
      ensures db.nodes - {newId} == old(db.nodes)
      ensures newId in db.nodes <==> ok && insertOk
      ensures Capacity(db.nodes) == Capacity(old(db.nodes)) && Used(db.nodes) == Used(old(db.nodes))
      ensures forall p: string ::
        (RowsOf(db.nodes, p)
         == RowsOf(old(db.nodes), p) + (if ok && insertOk && p == Requested(provider) then 1 else 0))
    {
      ok := known && callOk;
      if ok {
        var row := ProvisionedRow(Requested(provider), now);
        SetRow(db.nodes, newId, row);
        forall p: string ensures RowsOf(db.nodes[newId := row], p) == RowsOf(db.nodes, p) + One(row, p) {
          SetRowProvider(db.nodes, newId, row, p);
        }
        db.UpsertNode(newId, row, insertOk);
      }
    }

    method HandleNodeRegister(max: int, insertOk: bool, newId: NodeId, now: int) returns (ok: bool)
      requires newId !in db.nodes
      modifies db`nodes
      ensures ok == insertOk
      ensures db.nodes - {newId} == old(db.nodes)
      ensures newId in db.nodes <==> ok
      ensures ok ==> db.nodes[newId] == NodeRow("custom", Online, max, 0, now / 1_000_000_000)
      ensures Capacity(db.nodes) == Capacity(old(db.nodes)) + (if ok then max else 0)
      ensures Used(db.nodes) == Used(old(db.nodes))
      ensures RowsBounded(old(db.nodes)) ==> (RowsBounded(db.nodes) <==> (ok ==> max >= 0))
    {
      SetRow(db.nodes, newId, RegisteredRow(max, now));
      db.UpsertNode(newId, RegisteredRow(max, now), insertOk);
      ok := insertOk;
      if RowsBounded(old(db.nodes)) {
        SetKeepsBounds(old(db.nodes), newId, RegisteredRow(max, now));
      }
    }

    method HandleNodeHeartbeat(id: NodeId, running: int, updateOk: bool, now: int) returns (ok: bool)
      modifies db`nodes
      ensures ok == updateOk
      ensures db.nodes == if ok then WithHeartbeat(old(db.nodes), id, running, Seconds(now)) else old(db.nodes)
      ensures db.nodes.Keys == old(db.nodes).Keys && db.nodes - {id} == old(db.nodes) - {id}
      ensures ok && id in old(db.nodes) ==>
        var was := old(db.nodes)[id];
        db.nodes[id] == NodeRow(was.provider, Online, was.max, running, now / 1_000_000_000)
      ensures ok && id in old(db.nodes) && RowsBounded(old(db.nodes)) ==>
        (RowsBounded(db.nodes) <==> 0 <= running <= old(db.nodes)[id].max)
    {
      if id in db.nodes && RowsBounded(db.nodes) {
        SetKeepsBounds(db.nodes, id, db.nodes[id].(running := running, lastSeen := Seconds(now), status := Online));
      }
      db.UpdateNodeHeartbeat(id, running, Seconds(now), updateOk);
      ok := updateOk;
    }
  }
}
