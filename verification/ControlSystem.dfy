/** The control plane as a transition system.  Handlers and the scaler interleave statement by statement;
    the scaler and the sandbox creates work on snapshots that may be stale by the time they are used. */
module ControlSystem {
  import opened Wrappers
  import opened ControlTables
  import opened Scheduler
  import opened ScalerRules

  type RequestId = nat

  /** Where the scaler's goroutine is.  `todo` are the pools read at the start of the evaluation and not yet
      looked at (the query fixes no order), `s` the one being evaluated, `target` the node chosen to go. */
  datatype Phase =
    | Resting
    | Choosing(todo: Pools)
    | Growing(todo: Pools, s: PoolSnapshot)
    | Inserting(todo: Pools, s: PoolSnapshot)
    | Raising(todo: Pools, s: PoolSnapshot)
    | Listing(todo: Pools, s: PoolSnapshot)
    | Emptying(todo: Pools, s: PoolSnapshot, target: Snapshot)
    | Marking(todo: Pools, s: PoolSnapshot, target: Snapshot)
    | Stopping(todo: Pools, s: PoolSnapshot, target: Snapshot)
    | Deleting(todo: Pools, s: PoolSnapshot, target: Snapshot)
    | Lowering(todo: Pools, s: PoolSnapshot, target: Snapshot)
    | Scanning(unseen: Nodes, now: int)

  /** What has happened so far.  Per provider: rows added by hand (provisioning and registration requests),
      counters not raised after a row was added, rows not deleted and counters not lowered after a machine
      was stopped.  Per pool: rows added, machines stopped, and the counter updates that failed. */
  datatype Ledger = Ledger(manual: multiset<string>, unraised: multiset<string>, undeleted: multiset<string>,
                           unlowered: multiset<string>, added: multiset<PoolId>, stopped: multiset<PoolId>,
                           missedUp: multiset<PoolId>, missedDown: multiset<PoolId>)

  const EMPTY_LEDGER := Ledger(multiset{}, multiset{}, multiset{}, multiset{},
                               multiset{}, multiset{}, multiset{}, multiset{})

  /** `picks` are the sandbox creates waiting for their node's answer; `drawn` the node IDs drawn so far;
      `start` the pools when the current evaluation began. */
  datatype Control = Control(known: set<string>, nodes: Nodes, pools: Pools, phase: Phase,
                             picks: map<RequestId, Snapshot>, drawn: set<NodeId>, start: Pools, ledger: Ledger)

  datatype Event =
    | Provision(provider: string, newId: NodeId, now: int)
    | Register(max: int, newId: NodeId, now: int)
    | Heartbeat(id: NodeId, running: int, now: int)
    | PickFor(request: RequestId, target: Snapshot)
    | CountFor(request: RequestId, now: int)
    | Abandon(request: RequestId)  // the node refused, or the count could not be written
    | Evaluate
    | Choose(pool: PoolId, ok: bool)
    | Launch(ok: bool)
    | Insert(ok: bool, newId: NodeId, now: int)
    | Raise(ok: bool)
    | Select(ok: bool, list: seq<Snapshot>)
    | Drain(ok: bool)
    | Mark(ok: bool)
    | Stop(ok: bool)
    | Delete(ok: bool)
    | Lower(ok: bool)
    | Look(ok: bool, now: int)
    | Scan(node: NodeId, ok: bool)
    | Rest

  ghost predicate Enabled(c: Control, e: Event) {
    match e
    case Provision(_, newId, _) => newId !in c.drawn
    case Register(_, newId, _) => newId !in c.drawn
    case Heartbeat(_, _, _) => true
    case PickFor(r, t) => r !in c.picks && Answers(Picked(t), c.nodes)
    case CountFor(r, _) => r in c.picks
    case Abandon(r) => r in c.picks
    case Evaluate => c.phase.Resting?
    case Choose(id, _) => c.phase.Choosing? && id in c.phase.todo
    case Launch(_) => c.phase.Growing?
    case Insert(_, newId, _) => c.phase.Inserting? && newId !in c.drawn
    case Raise(_) => c.phase.Raising?
    case Select(ok, list) => c.phase.Listing? && (ok ==> OnlineListing(list, c.nodes))
    case Drain(_) => c.phase.Emptying?
    case Mark(_) => c.phase.Marking?
    case Stop(_) => c.phase.Stopping?
    case Delete(_) => c.phase.Deleting?
    case Lower(_) => c.phase.Lowering?
    case Look(_, _) => c.phase.Choosing? && c.phase.todo == map[]
    case Scan(id, _) => c.phase.Scanning? && id in c.phase.unseen
    case Rest => c.phase.Scanning? && c.phase.unseen == map[]
  }

  /** One atomic step, table by table. */
  ghost function Apply(c: Control, e: Event): Control
    requires Enabled(c, e)
  {
    Control(c.known, NextNodes(c, e), NextPools(c, e), NextPhase(c, e), NextPicks(c, e), NextDrawn(c, e),
            if e.Evaluate? then c.pools else c.start, NextLedger(c, e))
  }

  ghost function NextNodes(c: Control, e: Event): Nodes
    requires Enabled(c, e)
  {
    match e
    case Provision(provider, newId, now) => Upserted(c.nodes, newId, ProvisionedRow(provider, now))
    case Register(max, newId, now) => Upserted(c.nodes, newId, RegisteredRow(max, now))
    case Heartbeat(id, running, now) => WithHeartbeat(c.nodes, id, running, Seconds(now))
    case CountFor(r, now) => WithHeartbeat(c.nodes, c.picks[r].id, c.picks[r].row.running + 1, Seconds(now))
    case Insert(ok, newId, now) =>
      if ok then Upserted(c.nodes, newId, ProvisionedRow(c.phase.s.pool.provider, now)) else c.nodes
    case Drain(ok) => if ok then WithStatus(c.nodes, c.phase.target.id, Draining) else c.nodes
    case Mark(ok) => if ok then WithStatus(c.nodes, c.phase.target.id, Terminating) else c.nodes
    case Delete(ok) => if ok then c.nodes - {c.phase.target.id} else c.nodes
    case Scan(id, ok) =>
      if Stale(c.phase.unseen[id], c.phase.now) && ok then WithStatus(c.nodes, id, Offline) else c.nodes
    case _ => c.nodes
  }

  ghost function NextPools(c: Control, e: Event): Pools
    requires Enabled(c, e)
  {
    match e
    case Raise(ok) => Recounted(c.pools, c.phase.s, c.phase.s.pool.current + 1, ok)
    case Lower(ok) => Recounted(c.pools, c.phase.s, Clamped(c.phase.s.pool.current - 1), ok)
    case _ => c.pools
  }

  ghost function NextPhase(c: Control, e: Event): Phase
    requires Enabled(c, e)
  {
    var p := c.phase;
    match e
    case Evaluate => Choosing(c.pools)
    case Choose(id, ok) => Chosen(c, PoolSnapshot(id, p.todo[id]), ok)
    case Launch(ok) => if ok && p.s.pool.provider in c.known then Inserting(p.todo, p.s) else Choosing(p.todo)
    case Insert(ok, _, _) => if ok then Raising(p.todo, p.s) else Choosing(p.todo)
    case Raise(_) => Choosing(p.todo)
    case Select(ok, list) => if ok then Selected(p, Target(list, p.s.pool.provider)) else Choosing(p.todo)
    case Drain(_) =>
      if p.target.row.running == 0 && p.target.row.provider in c.known then Marking(p.todo, p.s, p.target)
      else Choosing(p.todo)
    case Mark(_) => Stopping(p.todo, p.s, p.target)
    case Stop(ok) => if ok then Deleting(p.todo, p.s, p.target) else Choosing(p.todo)
    case Delete(_) => Lowering(p.todo, p.s, p.target)
    case Lower(_) => Choosing(p.todo)
    case Look(ok, now) => Scanning(if ok then c.nodes else map[], now)
    case Scan(id, _) => Scanning(p.unseen - {id}, p.now)
    case Rest => Resting
    case _ => p
  }

  ghost function Chosen(c: Control, s: PoolSnapshot, ok: bool): Phase
    requires c.phase.Choosing?
  {
    var todo := c.phase.todo - {s.id};
    var total, used := Capacity(c.nodes), Used(c.nodes);
    if ok && WantsUp(total, used, s.pool) then Growing(todo, s)
    else if ok && WantsDown(total, used, s.pool) then Listing(todo, s)
    else Choosing(todo)
  }

  ghost function Selected(phase: Phase, target: Option<Snapshot>): Phase
    requires phase.Listing?
  {
    if target == None then Choosing(phase.todo) else Emptying(phase.todo, phase.s, target.value)
  }

  ghost function NextPicks(c: Control, e: Event): map<RequestId, Snapshot> {
    match e
    case PickFor(r, t) => c.picks[r := t]
    case CountFor(r, _) => c.picks - {r}
    case Abandon(r) => c.picks - {r}
    case _ => c.picks
  }

  ghost function NextDrawn(c: Control, e: Event): set<NodeId> {
    match e
    case Provision(_, newId, _) => c.drawn + {newId}
    case Register(_, newId, _) => c.drawn + {newId}
    case Insert(_, newId, _) => c.drawn + {newId}
    case _ => c.drawn
  }

  ghost function NextLedger(c: Control, e: Event): Ledger
    requires Enabled(c, e)
  {
    match e
    case Provision(provider, _, _) => AddedByHand(c.ledger, provider)
    case Register(_, _, _) => AddedByHand(c.ledger, "custom")
    case Insert(ok, _, _) => if ok then c.ledger.(added := c.ledger.added + multiset{c.phase.s.id}) else c.ledger
    case Raise(ok) => if ok then c.ledger else NotRaised(c.ledger, c.phase.s)
    case Stop(ok) => if ok then c.ledger.(stopped := c.ledger.stopped + multiset{c.phase.s.id}) else c.ledger
    case Delete(ok) => if ok then c.ledger else NotDeleted(c.ledger, c.phase.s)
    case Lower(ok) => if ok then c.ledger else NotLowered(c.ledger, c.phase.s)
    case _ => c.ledger
  }

  function AddedByHand(l: Ledger, provider: string): Ledger {
    l.(manual := l.manual + multiset{provider})
  }

  function NotRaised(l: Ledger, s: PoolSnapshot): Ledger {
    l.(unraised := l.unraised + multiset{s.pool.provider}, missedUp := l.missedUp + multiset{s.id})
  }

  function NotDeleted(l: Ledger, s: PoolSnapshot): Ledger {
    l.(undeleted := l.undeleted + multiset{s.pool.provider})
  }

  function NotLowered(l: Ledger, s: PoolSnapshot): Ledger {
    l.(unlowered := l.unlowered + multiset{s.pool.provider}, missedDown := l.missedDown + multiset{s.id})
  }

  // ----- runs

  ghost predicate IsRun(c: Control, es: seq<Event>)
    decreases |es|
  {
    es == [] || (Enabled(c, es[0]) && IsRun(Apply(c, es[0]), es[1..]))
  }

  ghost function Final(c: Control, es: seq<Event>): Control
    requires IsRun(c, es)
    decreases |es|
  {
    if es == [] then c else Final(Apply(c, es[0]), es[1..])
  }

  /** Any tables, the scaler at rest, no create waiting. */
  ghost predicate Init(c: Control) {
    c.phase == Resting && c.picks == map[] && c.nodes.Keys <= c.drawn && c.ledger == EMPTY_LEDGER && c.start == c.pools
  }

  // ----- invariants

  predicate HasPool(p: Phase) { !p.Resting? && !p.Choosing? && !p.Scanning? }

  predicate HasTarget(p: Phase) { p.Emptying? || p.Marking? || p.Stopping? || p.Deleting? }

  predicate Shrinks(p: Phase) { p.Listing? || p.Lowering? || HasTarget(p) }

  predicate Ends(p: Phase) { p.Marking? || p.Stopping? || p.Deleting? || p.Lowering? }

  function Ahead(p: Phase): set<PoolId> {
    if p.Resting? || p.Scanning? then {} else if p.Choosing? then p.todo.Keys else p.todo.Keys + {p.s.id}
  }

  /** Drawn IDs cover everything in use; a pick's room is its row's; the chosen node is still there. */
  ghost predicate Tracked(c: Control) {
    && c.nodes.Keys <= c.drawn
    && (forall r :: r in c.picks ==>
          c.picks[r].id in c.drawn && (c.picks[r].id in c.nodes ==> c.nodes[c.picks[r].id].max == c.picks[r].row.max))
    && (HasTarget(c.phase) ==>
          && c.phase.target.id in c.nodes
          && c.nodes[c.phase.target.id].provider == c.phase.target.row.provider == c.phase.s.pool.provider)
  }

  /** The pools still ahead are as they were read. */
  ghost predicate Unmoved(p: Phase, pools: Pools) {
    && (!p.Resting? && !p.Scanning? ==> forall id :: id in p.todo ==> id in pools && pools[id] == p.todo[id])
    && (HasPool(p) ==> p.s.id in pools && pools[p.s.id] == p.s.pool && p.s.id !in p.todo)
  }

  /** And the others have moved as an evaluation may move them. */
  ghost predicate Fresh(c: Control) {
    Unmoved(c.phase, c.pools) && CountersMoved(c.start, c.pools, Ahead(c.phase))
  }

  /** What was decided still stands: the pool may grow or shrink, and only an empty node is stopped. */
  ghost predicate Decided(c: Control) {
    && (HasPool(c.phase) ==>
          if Shrinks(c.phase) then c.phase.s.pool.current > c.phase.s.pool.min
          else c.phase.s.pool.current < c.phase.s.pool.max)
    && (Ends(c.phase) ==> c.phase.target.row.running == 0)
  }

  ghost predicate Steady(c: Control) {
    Tracked(c) && Fresh(c) && Decided(c) && MinsHold(c.pools)
  }

  lemma InitIsSteady(c: Control)
    requires Init(c) && MinsHold(c.pools)
    ensures Steady(c)
  {
  }

  /** A row keeps its provider and its room as long as it exists; only a Delete removes one. */
  lemma RowsKeepIdentity(c: Control, e: Event)
    requires c.nodes.Keys <= c.drawn && Enabled(c, e)
    ensures var d := Apply(c, e);
      && d.nodes.Keys <= d.drawn && c.drawn <= d.drawn
      && (forall id :: id in c.nodes && id in d.nodes ==>
            d.nodes[id].max == c.nodes[id].max && d.nodes[id].provider == c.nodes[id].provider)
      && (forall id :: id in d.nodes && id !in c.nodes ==> id !in c.drawn)
      && (!e.Delete? ==> c.nodes.Keys <= d.nodes.Keys)
  {
    hide NextPools, NextPhase, NextPicks, NextLedger;
  }

  lemma StepKeepsTracked(c: Control, e: Event)
    requires Tracked(c) && Enabled(c, e)
    ensures Tracked(Apply(c, e))
  {
    hide NextPools, NextNodes, NextDrawn, NextLedger, Capacity, Used, Target, OnlineListing;
    RowsKeepIdentity(c, e);
    if e.Select? && e.ok {
      TargetListed(e.list, c.nodes, c.phase.s.pool.provider);
    }
  }

  lemma StepKeepsDecided(c: Control, e: Event)
    requires Decided(c) && Enabled(c, e)
    ensures Decided(Apply(c, e))
  {
    hide NextNodes, NextPools, NextPicks, NextDrawn, NextLedger, Capacity, Used, Target, OnlineListing;
  }

  lemma FewerLeft(before: Pools, after: Pools, left: set<PoolId>, fewer: set<PoolId>)
    requires CountersMoved(before, after, left) && fewer <= left
    ensures CountersMoved(before, after, fewer)
  {
  }

  lemma NothingMovedYet(pools: Pools)
    ensures CountersMoved(pools, pools, pools.Keys)
  {
  }

  lemma RecountMoves(start: Pools, pools: Pools, left: set<PoolId>, s: PoolSnapshot, current: int, ok: bool)
    requires CountersMoved(start, pools, left + {s.id}) && s.id !in left
    requires s.id in pools && pools[s.id] == s.pool
    requires -1 <= current - s.pool.current <= 1
    requires s.pool.min <= s.pool.current <= s.pool.max ==> s.pool.min <= current <= s.pool.max
    ensures CountersMoved(start, Recounted(pools, s, current, ok), left)
    ensures Recounted(pools, s, current, ok).Keys == pools.Keys
    ensures forall id :: id in pools && id != s.id ==> Recounted(pools, s, current, ok)[id] == pools[id]
    ensures MinsHold(pools) ==> MinsHold(Recounted(pools, s, current, ok))
  {
  }

  lemma StepKeepsUnmoved(c: Control, e: Event)
    requires Unmoved(c.phase, c.pools) && Enabled(c, e)
    ensures Unmoved(NextPhase(c, e), NextPools(c, e))
    ensures !e.Evaluate? ==> Ahead(NextPhase(c, e)) <= Ahead(c.phase)
    ensures e.Evaluate? ==> Ahead(NextPhase(c, e)) == c.pools.Keys
    ensures e.Raise? || e.Lower? ==> Ahead(NextPhase(c, e)) == c.phase.todo.Keys
  {
    hide Capacity, Used, Target, OnlineListing;
  }

  lemma StepKeepsFresh(c: Control, e: Event)
    requires Fresh(c) && Decided(c) && MinsHold(c.pools) && Enabled(c, e)
    ensures Fresh(Apply(c, e)) && MinsHold(Apply(c, e).pools)
  {
    hide NextNodes, NextPhase, NextPicks, NextDrawn, NextLedger, CountersMoved, Recounted, MinsHold;
    StepKeepsUnmoved(c, e);
    var d := Apply(c, e);
    if e.Raise? {
      RecountMoves(c.start, c.pools, c.phase.todo.Keys, c.phase.s, c.phase.s.pool.current + 1, e.ok);
    } else if e.Lower? {
      MinOf(c.pools, c.phase.s);
      RecountMoves(c.start, c.pools, c.phase.todo.Keys, c.phase.s, Clamped(c.phase.s.pool.current - 1), e.ok);
    } else if e.Evaluate? {
      NothingMovedYet(c.pools);
    } else {
      FewerLeft(c.start, c.pools, Ahead(c.phase), Ahead(d.phase));
    }
  }

  lemma MinOf(pools: Pools, s: PoolSnapshot)
    requires MinsHold(pools) && s.id in pools && pools[s.id] == s.pool
    ensures 0 <= s.pool.min
  {
  }

  lemma {:induction false} RunKeepsSteady(c: Control, es: seq<Event>)
    requires Steady(c) && IsRun(c, es)
    ensures Steady(Final(c, es))
    decreases |es|
  {
    hide Tracked, Fresh, Decided, Enabled, Apply, MinsHold;
    if es != [] {
      StepKeepsTracked(c, es[0]);
      StepKeepsDecided(c, es[0]);
      StepKeepsFresh(c, es[0]);
      RunKeepsSteady(Apply(c, es[0]), es[1..]);
    }
  }
}
