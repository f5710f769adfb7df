/** What holds over every run of the control plane. */
module ControlLaws {
  import opened ControlTables
  import opened Scheduler
  import opened ScalerRules
  import opened ControlSystem

  // ----- conservation of scaled nodes

  function Times<T(==)>(m: multiset<T>, x: T): int { m[x] }

  /** Rows inserted but not yet counted, less machines stopped but not yet uncounted. */
  function PendingRows(p: Phase, provider: string): int {
    if !HasPool(p) || p.s.pool.provider != provider then 0
    else if p.Raising? then 1
    else if p.Lowering? then -1
    else 0
  }

  /** By how much the rows of a provider should exceed what its pools count. */
  function Excess(l: Ledger, p: Phase, provider: string): int {
    Recorded(l, provider) + PendingRows(p, provider)
  }

  function Recorded(l: Ledger, provider: string): int {
    Times(l.manual, provider) + Times(l.unraised, provider)
    + Times(l.undeleted, provider) - Times(l.unlowered, provider)
  }

  lemma RowsStep(c: Control, e: Event, provider: string)
    requires Steady(c) && Enabled(c, e)
    ensures RowsOf(NextNodes(c, e), provider) == RowsOf(c.nodes, provider) + RowChange(c, e, provider)
  {
    hide RowsOf, Fresh, Decided, MinsHold, Chosen, Answers, OnlineListing;
    match e {
      case Provision(p, newId, now) => SetRowProvider(c.nodes, newId, ProvisionedRow(p, now), provider);
      case Register(max, newId, now) => SetRowProvider(c.nodes, newId, RegisteredRow(max, now), provider);
      case Insert(_, newId, now) =>
        SetRowProvider(c.nodes, newId, ProvisionedRow(c.phase.s.pool.provider, now), provider);
      case Heartbeat(id, running, now) => HeartbeatKeepsRows(c.nodes, id, running, Seconds(now), provider);
      case CountFor(r, now) =>
        HeartbeatKeepsRows(c.nodes, c.picks[r].id, c.picks[r].row.running + 1, Seconds(now), provider);
      case Drain(_) => StatusKeepsRows(c.nodes, c.phase.target.id, Draining, provider);
      case Mark(_) => StatusKeepsRows(c.nodes, c.phase.target.id, Terminating, provider);
      case Scan(id, _) => StatusKeepsRows(c.nodes, id, Offline, provider);
      case Delete(_) => DropRowProvider(c.nodes, c.phase.target.id, provider);
      case _ =>
    }
  }

  ghost function RowChange(c: Control, e: Event, provider: string): int
    requires Enabled(c, e)
  {
    match e
    case Provision(p, _, _) => if p == provider then 1 else 0
    case Register(_, _, _) => if "custom" == provider then 1 else 0
    case Insert(ok, _, _) => if ok && c.phase.s.pool.provider == provider then 1 else 0
    case Delete(ok) => if ok && c.phase.s.pool.provider == provider then -1 else 0
    case _ => 0
  }

  lemma HeartbeatKeepsRows(nodes: Nodes, id: NodeId, running: int, now: int, provider: string)
    ensures RowsOf(WithHeartbeat(nodes, id, running, now), provider) == RowsOf(nodes, provider)
  {
    if id in nodes {
      SetRowProvider(nodes, id, nodes[id].(running := running, lastSeen := now, status := Online), provider);
    }
  }

  lemma CountsStep(c: Control, e: Event, provider: string)
    requires Steady(c) && Enabled(c, e)
    ensures CountedFor(NextPools(c, e), provider) == CountedFor(c.pools, provider) + CountChange(c, e, provider)
  {
    hide CountedFor, Tracked, CountersMoved, Chosen, Answers, OnlineListing;
    match e {
      case Raise(_) => SetPool(c.pools, c.phase.s.id, c.phase.s.pool.(current := c.phase.s.pool.current + 1), provider);
      case Lower(_) =>
        MinOf(c.pools, c.phase.s);
        SetPool(c.pools, c.phase.s.id, c.phase.s.pool.(current := c.phase.s.pool.current - 1), provider);
      case _ =>
    }
  }

  ghost function CountChange(c: Control, e: Event, provider: string): int
    requires Enabled(c, e)
  {
    match e
    case Raise(ok) => if ok && c.phase.s.pool.provider == provider then 1 else 0
    case Lower(ok) => if ok && c.phase.s.pool.provider == provider then -1 else 0
    case _ => 0
  }

  ghost function RecordedChange(c: Control, e: Event, provider: string): int
    requires Enabled(c, e)
  {
    match e
    case Provision(p, _, _) => if p == provider then 1 else 0
    case Register(_, _, _) => if "custom" == provider then 1 else 0
    case Raise(ok) => if !ok && c.phase.s.pool.provider == provider then 1 else 0
    case Delete(ok) => if !ok && c.phase.s.pool.provider == provider then 1 else 0
    case Lower(ok) => if !ok && c.phase.s.pool.provider == provider then -1 else 0
    case _ => 0
  }

  lemma RecordedStep(c: Control, e: Event, provider: string)
    requires Enabled(c, e)
    ensures Recorded(NextLedger(c, e), provider) == Recorded(c.ledger, provider) + RecordedChange(c, e, provider)
  {
    hide Answers, OnlineListing;
  }

  lemma PendingStep(c: Control, e: Event, provider: string)
    requires Enabled(c, e)
    ensures PendingRows(NextPhase(c, e), provider) == PendingRows(c.phase, provider)
      + RowChange(c, e, provider) - CountChange(c, e, provider) - RecordedChange(c, e, provider)
  {
    hide Capacity, Used, Target, OnlineListing, Answers;
  }

  lemma ExcessStep(c: Control, e: Event, provider: string)
    requires Enabled(c, e)
    ensures Excess(NextLedger(c, e), NextPhase(c, e), provider)
      == Excess(c.ledger, c.phase, provider) + RowChange(c, e, provider) - CountChange(c, e, provider)
  {
    hide Enabled, NextLedger, NextPhase, PendingRows, Recorded, RowChange, CountChange, RecordedChange;
    RecordedStep(c, e, provider);
    PendingStep(c, e, provider);
  }

  /** Over every run, rows minus counted nodes change for each provider by exactly the rows added by hand
      and the three kinds of failed statement; nothing else the scaler, the handlers or the heartbeats do matters. */
  lemma {:induction false} BalanceOverRuns(c: Control, es: seq<Event>, provider: string)
    requires Steady(c) && IsRun(c, es)
    ensures var d := Final(c, es);
      Balance(Tables(d.nodes, d.pools), provider) - Excess(d.ledger, d.phase, provider)
        == Balance(Tables(c.nodes, c.pools), provider) - Excess(c.ledger, c.phase, provider)
    decreases |es|
  {
    hide Enabled, NextNodes, NextPools, NextPhase, NextLedger, NextPicks, NextDrawn, Steady, Excess, RowChange,
      CountChange, RowsOf, CountedFor;
    if es != [] {
      RowsStep(c, es[0], provider);
      CountsStep(c, es[0], provider);
      ExcessStep(c, es[0], provider);
      RunKeepsSteady(c, [es[0]]);
      BalanceOverRuns(Apply(c, es[0]), es[1..], provider);
    }
  }

  lemma Conservation(c: Control, es: seq<Event>, provider: string)
    requires Init(c) && MinsHold(c.pools) && IsRun(c, es)
    ensures var d := Final(c, es);
      Balance(Tables(d.nodes, d.pools), provider)
        == Balance(Tables(c.nodes, c.pools), provider) + Excess(d.ledger, d.phase, provider)
  {
    InitIsSteady(c);
    BalanceOverRuns(c, es, provider);
  }

  /** No statement on a pool fails, and no deletion. */
  predicate Faultless(es: seq<Event>) {
    forall i :: 0 <= i < |es| ==> es[i] != Raise(false) && es[i] != Lower(false) && es[i] != Delete(false)
  }

  lemma {:induction false} FaultlessLedger(c: Control, es: seq<Event>, provider: string)
    requires IsRun(c, es) && Faultless(es)
    ensures var l, m := c.ledger, Final(c, es).ledger;
      m.unraised == l.unraised && m.undeleted == l.undeleted && m.unlowered == l.unlowered
    decreases |es|
  {
    hide Enabled, NextNodes, NextPools, NextPhase, NextPicks, NextDrawn;
    if es != [] {
      assert es[0] != Raise(false) && es[0] != Lower(false) && es[0] != Delete(false);
      FaultlessLedger(Apply(c, es[0]), es[1..], provider);
    }
  }

  /** Between evaluations of a faultless run, rows and counters differ by what was added by hand. */
  lemma ConservationAtRest(c: Control, es: seq<Event>, provider: string)
    requires Init(c) && MinsHold(c.pools) && IsRun(c, es) && Faultless(es) && Final(c, es).phase == Resting
    ensures var d := Final(c, es);
      Balance(Tables(d.nodes, d.pools), provider)
        == Balance(Tables(c.nodes, c.pools), provider) + d.ledger.manual[provider]
  {
    Conservation(c, es, provider);
    FaultlessLedger(c, es, provider);
  }

  /** How often a row of the provider was added by hand: a registration counts for "custom". */
  function TimesByHand(es: seq<Event>, provider: string): nat {
    if es == [] then 0
    else
      (if (es[0].Provision? && es[0].provider == provider) || (es[0].Register? && provider == "custom") then 1 else 0)
      + TimesByHand(es[1..], provider)
  }

  lemma {:induction false} ManualInRun(c: Control, es: seq<Event>, provider: string)
    requires IsRun(c, es)
    ensures Final(c, es).ledger.manual[provider] == c.ledger.manual[provider] + TimesByHand(es, provider)
    decreases |es|
  {
    hide Enabled, NextNodes, NextPools, NextPhase, NextPicks, NextDrawn;
    if es != [] {
      ManualInRun(Apply(c, es[0]), es[1..], provider);
    }
  }

  /** By the events of the run: rows and counters differ from the start by the rows added by hand. */
  lemma ConservationByEvents(c: Control, es: seq<Event>, provider: string)
    requires Init(c) && MinsHold(c.pools) && IsRun(c, es) && Faultless(es) && Final(c, es).phase == Resting
    ensures var d := Final(c, es);
      Balance(Tables(d.nodes, d.pools), provider)
        == Balance(Tables(c.nodes, c.pools), provider) + TimesByHand(es, provider)
  {
    ConservationAtRest(c, es, provider);
    ManualInRun(c, es, provider);
  }

  /** The net record of failures and manual rows, summed over the events of the run. */
  ghost function RecordedBy(c: Control, es: seq<Event>, provider: string): int
    requires IsRun(c, es)
    decreases |es|
  {
    if es == [] then 0 else RecordedChange(c, es[0], provider) + RecordedBy(Apply(c, es[0]), es[1..], provider)
  }

  lemma {:induction false} RecordedInRun(c: Control, es: seq<Event>, provider: string)
    requires IsRun(c, es)
    ensures Recorded(Final(c, es).ledger, provider) == Recorded(c.ledger, provider) + RecordedBy(c, es, provider)
    decreases |es|
  {
    hide Enabled, NextNodes, NextPools, NextPhase, NextPicks, NextDrawn, NextLedger, Recorded, RecordedChange;
    if es != [] {
      RecordedStep(c, es[0], provider);
      RecordedInRun(Apply(c, es[0]), es[1..], provider);
    }
  }

  // ----- counters

  /** The net movement of a pool's counter that the ledger accounts for. */
  function Moves(l: Ledger, p: Phase, id: PoolId): int {
    Tally(l, id) + PendingCount(p, id)
  }

  function Tally(l: Ledger, id: PoolId): int {
    Times(l.added, id) - Times(l.missedUp, id) - Times(l.stopped, id) + Times(l.missedDown, id)
  }

  /** A row added is not counted yet; a machine stopped is not uncounted yet. */
  function PendingCount(p: Phase, id: PoolId): int {
    if !HasPool(p) || p.s.id != id then 0
    else if p.Raising? then -1
    else if p.Deleting? || p.Lowering? then 1
    else 0
  }

  ghost function TallyChange(c: Control, e: Event, id: PoolId): int
    requires Enabled(c, e)
  {
    match e
    case Insert(ok, _, _) => if ok && c.phase.s.id == id then 1 else 0
    case Raise(ok) => if !ok && c.phase.s.id == id then -1 else 0
    case Stop(ok) => if ok && c.phase.s.id == id then -1 else 0
    case Lower(ok) => if !ok && c.phase.s.id == id then 1 else 0
    case _ => 0
  }

  lemma TallyStep(c: Control, e: Event, id: PoolId)
    requires Enabled(c, e)
    ensures Tally(NextLedger(c, e), id) == Tally(c.ledger, id) + TallyChange(c, e, id)
  {
    hide Answers, OnlineListing;
  }

  lemma PendingCountStep(c: Control, e: Event, id: PoolId)
    requires Enabled(c, e)
    ensures PendingCount(NextPhase(c, e), id)
      == PendingCount(c.phase, id) + CounterChange(c, e, id) - TallyChange(c, e, id)
  {
    hide Capacity, Used, Target, OnlineListing, Answers;
  }

  lemma MovesStep(c: Control, e: Event, id: PoolId)
    requires Enabled(c, e)
    ensures Moves(NextLedger(c, e), NextPhase(c, e), id) == Moves(c.ledger, c.phase, id) + CounterChange(c, e, id)
  {
    hide Enabled, NextLedger, NextPhase, PendingCount, Tally, CounterChange, TallyChange;
    TallyStep(c, e, id);
    PendingCountStep(c, e, id);
  }

  ghost function CounterChange(c: Control, e: Event, id: PoolId): int
    requires Enabled(c, e)
  {
    match e
    case Raise(ok) => if ok && c.phase.s.id == id then 1 else 0
    case Lower(ok) => if ok && c.phase.s.id == id then -1 else 0
    case _ => 0
  }

  lemma CounterStep(c: Control, e: Event, id: PoolId)
    requires Steady(c) && Enabled(c, e) && id in c.pools
    ensures var after := NextPools(c, e);
      && id in after
      && after[id] == c.pools[id].(current := c.pools[id].current + CounterChange(c, e, id))
      && (InRange(c.pools[id]) ==> InRange(after[id]))
  {
    hide Capacity, Used, Target, OnlineListing, Answers, CountersMoved, Tracked;
    if e.Lower? {
      MinOf(c.pools, c.phase.s);
    }
  }

  /** Over every run a pool's counter moves by the nodes added less the machines stopped, but for failed
      updates: the clamp at zero never intervenes.  The range is never left and the pool's settings never change. */
  lemma {:induction false} CounterOverRuns(c: Control, es: seq<Event>, id: PoolId)
    requires Steady(c) && IsRun(c, es) && id in c.pools
    ensures var d := Final(c, es);
      && id in d.pools
      && d.pools[id].current - Moves(d.ledger, d.phase, id) == c.pools[id].current - Moves(c.ledger, c.phase, id)
      && d.pools[id] == c.pools[id].(current := d.pools[id].current)
      && (InRange(c.pools[id]) ==> InRange(d.pools[id]))
    decreases |es|
  {
    hide Enabled, NextNodes, NextPools, NextPhase, NextLedger, NextPicks, NextDrawn, Steady, Moves, CounterChange,
      InRange;
    if es != [] {
      MovesStep(c, es[0], id);
      CounterStep(c, es[0], id);
      RunKeepsSteady(c, [es[0]]);
      CounterOverRuns(Apply(c, es[0]), es[1..], id);
    }
  }

  /** Over every run, a machine is only ever stopped, and its row only deleted, if the node was empty when it
      was listed; the row is still there then, and of the pool's provider. */
  lemma OnlyEmptyNodesStopped(c: Control, es: seq<Event>)
    requires Init(c) && MinsHold(c.pools) && IsRun(c, es)
    ensures var d := Final(c, es);
      d.phase.Marking? || d.phase.Stopping? || d.phase.Deleting? ==>
        && d.phase.target.row.running == 0
        && d.phase.target.id in d.nodes
        && d.nodes[d.phase.target.id].provider == d.phase.s.pool.provider
  {
    InitIsSteady(c);
    RunKeepsSteady(c, es);
  }

  lemma {:induction false} StartStays(c: Control, es: seq<Event>)
    requires IsRun(c, es) && forall i :: 0 <= i < |es| ==> es[i] != Evaluate
    ensures Final(c, es).start == c.start
    decreases |es|
  {
    hide Enabled, NextNodes, NextPools, NextPhase, NextLedger, NextPicks, NextDrawn;
    if es != [] {
      assert es[0] != Evaluate;
      StartStays(Apply(c, es[0]), es[1..]);
    }
  }

  /** However the handlers interleave with it, one evaluation moves each counter at most once. */
  lemma OneMovePerEvaluation(c: Control, es: seq<Event>)
    requires Steady(c) && c.phase == Resting && IsRun(c, [Evaluate] + es)
    requires forall i :: 0 <= i < |es| ==> es[i] != Evaluate
    ensures CountersMoved(c.pools, Final(c, [Evaluate] + es).pools, {})
  {
    hide CountersMoved;
    var all := [Evaluate] + es;
    assert all[1..] == es;
    StartStays(Apply(c, Evaluate), es);
    RunKeepsSteady(c, all);
    var d := Final(c, all);
    FewerLeft(d.start, d.pools, Ahead(d.phase), {});
  }

  // ----- loads

  /** Every row and every waiting pick is within its room. */
  ghost predicate Bounded(c: Control) {
    RowsBounded(c.nodes) && forall r :: r in c.picks ==> 0 <= c.picks[r].row.running < c.picks[r].row.max
  }

  /** What nodes report about themselves is within their room. */
  ghost predicate Plausible(c: Control, e: Event) {
    match e
    case Register(max, _, _) => max >= 0
    case Heartbeat(id, running, _) => id in c.nodes ==> 0 <= running <= c.nodes[id].max
    case _ => true
  }

  /** Stale snapshots, the scaler and failing statements never break the bounds; only an implausible report does. */
  lemma BoundsStep(c: Control, e: Event)
    requires Tracked(c) && Bounded(c) && Enabled(c, e)
    ensures Bounded(Apply(c, e)) <==> Plausible(c, e)
  {
    hide NextPhase, NextPools, NextLedger, NextDrawn, RowsBounded, OnlineListing;
    BoundedRows(c, e);
    if e.PickFor? {
      RowWithin(c.nodes, e.target.id);
    }
  }

  lemma RowWithin(nodes: Nodes, id: NodeId)
    requires RowsBounded(nodes) && id in nodes
    ensures 0 <= nodes[id].running <= nodes[id].max
  {
  }

  lemma BoundedRows(c: Control, e: Event)
    requires Tracked(c) && Bounded(c) && Enabled(c, e)
    ensures RowsBounded(NextNodes(c, e)) <==> Plausible(c, e)
  {
    hide RowsBounded, OnlineListing, Answers;
    match e {
      case Provision(p, newId, now) => SetKeepsBounds(c.nodes, newId, ProvisionedRow(p, now));
      case Register(max, newId, now) => SetKeepsBounds(c.nodes, newId, RegisteredRow(max, now));
      case Insert(_, newId, now) => SetKeepsBounds(c.nodes, newId, ProvisionedRow(c.phase.s.pool.provider, now));
      case Heartbeat(id, running, now) => HeartbeatBounds(c.nodes, id, running, Seconds(now));
      case CountFor(r, now) => HeartbeatBounds(c.nodes, c.picks[r].id, c.picks[r].row.running + 1, Seconds(now));
      case Drain(_) => StatusBounds(c.nodes, c.phase.target.id, Draining);
      case Mark(_) => StatusBounds(c.nodes, c.phase.target.id, Terminating);
      case Scan(id, _) => StatusBounds(c.nodes, id, Offline);
      case Delete(_) => FewerRowsBounded(c.nodes, c.phase.target.id);
      case _ =>
    }
  }

  lemma HeartbeatBounds(nodes: Nodes, id: NodeId, running: int, now: int)
    requires RowsBounded(nodes)
    ensures RowsBounded(WithHeartbeat(nodes, id, running, now)) <==> (id in nodes ==> 0 <= running <= nodes[id].max)
  {
    if id in nodes {
      SetKeepsBounds(nodes, id, nodes[id].(running := running, lastSeen := now, status := Online));
    }
  }

  lemma StatusBounds(nodes: Nodes, id: NodeId, status: Status)
    requires RowsBounded(nodes)
    ensures RowsBounded(WithStatus(nodes, id, status))
  {
  }

  lemma FewerRowsBounded(nodes: Nodes, id: NodeId)
    requires RowsBounded(nodes)
    ensures RowsBounded(nodes - {id})
  {
  }

  ghost predicate AllPlausible(c: Control, es: seq<Event>)
    requires IsRun(c, es)
    decreases |es|
  {
    es == [] || (Plausible(c, es[0]) && AllPlausible(Apply(c, es[0]), es[1..]))
  }

  /** Over every run with plausible reports each row stays within its room, and utilisation is a fraction. */
  lemma {:induction false} LoadsOverRuns(c: Control, es: seq<Event>)
    requires Tracked(c) && Bounded(c) && IsRun(c, es) && AllPlausible(c, es)
    ensures Bounded(Final(c, es)) && 0 <= Used(Final(c, es).nodes) <= Capacity(Final(c, es).nodes)
    decreases |es|
  {
    hide Enabled, NextNodes, NextPools, NextPhase, NextLedger, NextPicks, NextDrawn, Tracked, Plausible, Used, Capacity;
    if es == [] {
      UsedWithinCapacity(c.nodes);
    } else {
      BoundsStep(c, es[0]);
      StepKeepsTracked(c, es[0]);
      LoadsOverRuns(Apply(c, es[0]), es[1..]);
    }
  }
}
