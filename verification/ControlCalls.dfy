/** Whole calls as runs of the control plane: one pool's evaluation when nothing steps in between,
    and the schedules in which a stale snapshot shows. */
module ControlCalls {
  import opened Wrappers
  import opened ControlTables
  import opened Scheduler
  import opened ScalerRules
  import opened ControlSystem
  import opened ControlLaws

  lemma Prepend(c: Control, e: Event, rest: seq<Event>)
    requires Enabled(c, e) && IsRun(Apply(c, e), rest)
    ensures IsRun(c, [e] + rest) && Final(c, [e] + rest) == Final(Apply(c, e), rest)
  {
    hide Enabled, NextNodes, NextPools, NextPhase, NextLedger, NextPicks, NextDrawn;
    assert ([e] + rest)[1..] == rest;
  }

  lemma Single(c: Control, e: Event)
    requires Enabled(c, e)
    ensures IsRun(c, [e]) && Final(c, [e]) == Apply(c, e)
  {
    hide Enabled, NextNodes, NextPools, NextPhase, NextLedger, NextPicks, NextDrawn;
    assert [e] + [] == [e];
    Prepend(c, e, []);
  }

  // ----- the scaler alone

  /** The steps of one pool's evaluation. */
  ghost function PoolSteps(t: Tables, s: PoolSnapshot, known: set<string>, list: seq<Snapshot>, env: Env): seq<Event> {
    [Choose(s.id, env.capacityOk)] +
    (if GoesUp(t, s, env) then UpSteps(s, known, env)
     else if GoesDown(t, s, env) then DownSteps(s, known, list, env)
     else [])
  }

  function UpSteps(s: PoolSnapshot, known: set<string>, env: Env): seq<Event> {
    [Launch(env.callOk)] +
    (if !env.callOk || s.pool.provider !in known then []
     else [Insert(env.insertOk, env.newId, env.now)] + (if env.insertOk then [Raise(env.poolOk)] else []))
  }

  function DownSteps(s: PoolSnapshot, known: set<string>, list: seq<Snapshot>, env: Env): seq<Event> {
    var target := if env.listOk then Target(list, s.pool.provider) else None;
    [Select(env.listOk, list)] + if target == None then [] else DrainSteps(target.value, known, env)
  }

  function DrainSteps(target: Snapshot, known: set<string>, env: Env): seq<Event> {
    [Drain(env.drainOk)] + if target.row.running == 0 && target.row.provider in known then EndSteps(env) else []
  }

  function EndSteps(env: Env): seq<Event> { [Mark(env.markOk)] + StopSteps(env) }

  function StopSteps(env: Env): seq<Event> {
    [Stop(env.callOk)] + (if env.callOk then [Delete(env.deleteOk)] + [Lower(env.poolOk)] else [])
  }

  function TablesOf(c: Control): Tables { Tables(c.nodes, c.pools) }

  /** The run reaches a state between two pools with these tables. */
  ghost predicate Reaches(c: Control, es: seq<Event>, todo: Pools, t: Tables) {
    IsRun(c, es) && Final(c, es).phase == Choosing(todo) && TablesOf(Final(c, es)) == t
  }

  lemma Onward(c: Control, e: Event, rest: seq<Event>, todo: Pools, t: Tables)
    requires Enabled(c, e) && Reaches(Apply(c, e), rest, todo, t)
    ensures Reaches(c, [e] + rest, todo, t)
  {
    Prepend(c, e, rest);
  }

  lemma UpAlone(c: Control, env: Env)
    requires c.phase.Growing? && env.newId !in c.drawn
    ensures Reaches(c, UpSteps(c.phase.s, c.known, env), c.phase.todo, ScaledUp(TablesOf(c), c.phase.s, c.known, env))
  {
    hide Upserted, Recounted;
    var s, todo := c.phase.s, c.phase.todo;
    var t := ScaledUp(TablesOf(c), s, c.known, env);
    var launch, insert, raise := Launch(env.callOk), Insert(env.insertOk, env.newId, env.now), Raise(env.poolOk);
    var c1 := Apply(c, launch);
    if !env.callOk || s.pool.provider !in c.known {
      Onward(c, launch, [], todo, t);
    } else if !env.insertOk {
      Onward(c1, insert, [], todo, t);
      Onward(c, launch, [insert], todo, t);
    } else {
      var c2 := Apply(c1, insert);
      Onward(c2, raise, [], todo, t);
      Onward(c1, insert, [raise], todo, t);
      Onward(c, launch, [insert] + [raise], todo, t);
    }
  }

  lemma EndAlone(c: Control, env: Env)
    requires c.phase.Marking? && c.phase.target.row.provider in c.known
    ensures Reaches(c, EndSteps(env), c.phase.todo, Terminated(TablesOf(c), c.phase.s, c.phase.target, c.known, env))
  {
    hide Reaches, WithStatus, Recounted;
    var c1 := Apply(c, Mark(env.markOk));
    StopAlone(c1, env);
    Onward(c, Mark(env.markOk), StopSteps(env), c.phase.todo,
           Terminated(TablesOf(c), c.phase.s, c.phase.target, c.known, env));
  }

  lemma StopAlone(c: Control, env: Env)
    requires c.phase.Stopping?
    ensures Reaches(c, StopSteps(env), c.phase.todo, Stopped(TablesOf(c), c.phase.s, c.phase.target, env))
  {
    hide Recounted;
    var todo, t := c.phase.todo, Stopped(TablesOf(c), c.phase.s, c.phase.target, env);
    var c1 := Apply(c, Stop(env.callOk));
    if !env.callOk {
      Onward(c, Stop(env.callOk), [], todo, t);
    } else {
      var c2 := Apply(c1, Delete(env.deleteOk));
      Onward(c2, Lower(env.poolOk), [], todo, t);
      Onward(c1, Delete(env.deleteOk), [Lower(env.poolOk)], todo, t);
      Onward(c, Stop(env.callOk), [Delete(env.deleteOk)] + [Lower(env.poolOk)], todo, t);
    }
  }

  lemma DownAlone(c: Control, list: seq<Snapshot>, env: Env)
    requires c.phase.Listing? && OnlineListing(list, c.nodes)
    ensures Reaches(c, DownSteps(c.phase.s, c.known, list, env), c.phase.todo,
                    ScaledDown(TablesOf(c), c.phase.s, c.known, list, env))
  {
    hide WithStatus, OnlineListing, Target;
    var s, todo := c.phase.s, c.phase.todo;
    var t := ScaledDown(TablesOf(c), s, c.known, list, env);
    var target := if env.listOk then Target(list, s.pool.provider) else None;
    var select, drain := Select(env.listOk, list), Drain(env.drainOk);
    var c1 := Apply(c, select);
    if target == None {
      Onward(c, select, [], todo, t);
    } else {
      var c2 := Apply(c1, drain);
      if target.value.row.running == 0 && target.value.row.provider in c.known {
        EndAlone(c2, env);
        Onward(c1, drain, EndSteps(env), todo, t);
        Onward(c, select, [drain] + EndSteps(env), todo, t);
      } else {
        Onward(c1, drain, [], todo, t);
        Onward(c, select, [drain], todo, t);
        assert [drain] + [] == [drain];
      }
    }
  }

  /** Without interleaving the steps do to the tables what the scaler's code does. */
  lemma PoolAlone(c: Control, s: PoolSnapshot, list: seq<Snapshot>, env: Env)
    requires c.phase.Choosing? && s.id in c.phase.todo && c.phase.todo[s.id] == s.pool && env.newId !in c.drawn
    requires GoesDown(TablesOf(c), s, env) ==> OnlineListing(list, c.nodes)
    ensures Reaches(c, PoolSteps(TablesOf(c), s, c.known, list, env), c.phase.todo - {s.id},
                    PoolEvaluated(TablesOf(c), s, c.known, list, env))
  {
    hide Reaches, ScaledUp, ScaledDown, UpSteps, DownSteps, OnlineListing, Capacity, Used;
    var t, todo := PoolEvaluated(TablesOf(c), s, c.known, list, env), c.phase.todo - {s.id};
    var choose := Choose(s.id, env.capacityOk);
    var c1 := Apply(c, choose);
    if GoesUp(TablesOf(c), s, env) {
      UpAlone(c1, env);
      Onward(c, choose, UpSteps(s, c.known, env), todo, t);
    } else if GoesDown(TablesOf(c), s, env) {
      DownAlone(c1, list, env);
      Onward(c, choose, DownSteps(s, c.known, list, env), todo, t);
    } else {
      Nowhere(c1, todo);
      Onward(c, choose, [], todo, t);
    }
  }

  lemma Nowhere(c: Control, todo: Pools)
    requires c.phase == Choosing(todo)
    ensures Reaches(c, [], todo, TablesOf(c))
  {
  }

  // ----- stale snapshots

  /** A create counts exactly one sandbox, and leaves the capacity alone, if and only if its node is
      still online with the load it was picked with. */
  lemma CountsExactlyOne(c: Control, r: RequestId, now: int)
    requires Tracked(c) && Bounded(c) && r in c.picks
    ensures var t, after := c.picks[r], Apply(c, CountFor(r, now)).nodes;
      (Used(after) == Used(c.nodes) + 1 && Capacity(after) == Capacity(c.nodes))
        <==> t.id in c.nodes && c.nodes[t.id].status == Online && c.nodes[t.id].running == t.row.running
  {
    var t := c.picks[r];
    if t.id in c.nodes {
      SetRow(c.nodes, t.id, c.nodes[t.id].(running := t.row.running + 1, lastSeen := Seconds(now), status := Online));
    }
  }

  /** Two creates that pick the same node from the same state are counted as one. */
  lemma LostCount(c: Control, r: RequestId, q: RequestId, t: Snapshot, now: int)
    requires r !in c.picks && q !in c.picks && r != q && Answers(Picked(t), c.nodes)
    ensures var es := [PickFor(r, t), PickFor(q, t), CountFor(r, now), CountFor(q, now)];
      IsRun(c, es) && Used(Final(c, es).nodes) == Used(c.nodes) + 1
  {
    hide Answers, Used, RowsBounded;
    var c1 := Apply(c, PickFor(r, t));
    var c2 := Apply(c1, PickFor(q, t));
    var c3 := Apply(c2, CountFor(r, now));
    RowPicked(c.nodes, t);
    OneMore(c.nodes, t.id, Seconds(now));
    assert Apply(c3, CountFor(q, now)).nodes == c3.nodes;
    Single(c3, CountFor(q, now));
    Prepend(c2, CountFor(r, now), [CountFor(q, now)]);
    Prepend(c1, PickFor(q, t), [CountFor(r, now)] + [CountFor(q, now)]);
    Prepend(c, PickFor(r, t), [PickFor(q, t)] + ([CountFor(r, now)] + [CountFor(q, now)]));
    assert [PickFor(r, t)] + ([PickFor(q, t)] + ([CountFor(r, now)] + [CountFor(q, now)]))
      == [PickFor(r, t), PickFor(q, t), CountFor(r, now), CountFor(q, now)];
  }

  lemma RowPicked(nodes: Nodes, t: Snapshot)
    requires Answers(Picked(t), nodes)
    ensures HasRoom(nodes, t.id) && t.row == nodes[t.id]
  {
  }
}
