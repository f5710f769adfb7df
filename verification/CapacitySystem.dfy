/** orchestrator/orchestrator.go over an arbitrary runtime: the count check of Create and Restore
    is one step, the Put another, and the runtime may do anything in between. */
module CapacitySystem {
  import opened HostNetwork
  import opened NodeSystem
  import opened NodeAgreement

  datatype Orchestrator = Orchestrator(maxVMs: int, store: set<Id>, pending: map<Call, Id>)

  datatype Act =
    | Check(c: Call, id: Id)  // Create or Restore: count below the limit
    | Abort(c: Call)          // the runtime refused
    | Commit(c: Call)         // the trailing Put
    | Remove(id: Id)          // Delete: store.Delete
    | Revive(id: Id)          // Pause or Resume: the trailing Put

  ghost predicate Allowed(s: Orchestrator, a: Act) {
    match a
    case Check(c, _) => c !in s.pending && |s.store| < s.maxVMs
    case Abort(c) => c in s.pending
    case Commit(c) => c in s.pending
    case Remove(_) => true
    case Revive(_) => true
  }

  ghost function Do(s: Orchestrator, a: Act): Orchestrator
    requires Allowed(s, a)
  {
    match a
    case Check(c, id) => s.(pending := s.pending[c := id])
    case Abort(c) => s.(pending := s.pending - {c})
    case Commit(c) => s.(store := s.store + {s.pending[c]}, pending := s.pending - {c})
    case Remove(id) => s.(store := s.store - {id})
    case Revive(id) => s.(store := s.store + {id})
  }

  /** A run with at most `k` creates or restores in flight at any time. */
  ghost predicate IsRun(s: Orchestrator, acts: seq<Act>, k: nat)
    decreases |acts|
  {
    |s.pending| <= k && (acts == [] || (Allowed(s, acts[0]) && IsRun(Do(s, acts[0]), acts[1..], k)))
  }

  ghost function Final(s: Orchestrator, acts: seq<Act>, k: nat): Orchestrator
    requires IsRun(s, acts, k)
    decreases |acts|
  {
    if acts == [] then s else Final(Do(s, acts[0]), acts[1..], k)
  }

  /** How many Puts of Pause and Resume found their entry gone. */
  ghost function Revivals(s: Orchestrator, acts: seq<Act>, k: nat): nat
    requires IsRun(s, acts, k)
    decreases |acts|
  {
    if acts == [] then 0
    else (if acts[0].Revive? && acts[0].id !in s.store then 1 else 0) + Revivals(Do(s, acts[0]), acts[1..], k)
  }

  function AtLeastZero(n: int): nat { if n < 0 then 0 else n }

  lemma {:induction false} RunStaysWithin(s: Orchestrator, acts: seq<Act>, k: nat, extra: nat)
    requires IsRun(s, acts, k)
    requires |s.store| + |s.pending| <= AtLeastZero(s.maxVMs - 1 + k) + extra
    ensures var t := Final(s, acts, k);
      |t.store| + |t.pending| <= AtLeastZero(s.maxVMs - 1 + k) + extra + Revivals(s, acts, k)
    decreases |acts|
  {
    if acts != [] {
      var a, t := acts[0], Do(s, acts[0]);
      assert IsRun(t, acts[1..], k);
      StepSizes(s, a);
      RunStaysWithin(t, acts[1..], k, extra + if a.Revive? && a.id !in s.store then 1 else 0);
    }
  }

  lemma StepSizes(s: Orchestrator, a: Act)
    requires Allowed(s, a)
    ensures var t := Do(s, a);
      t.maxVMs == s.maxVMs &&
      (a.Check? ==> |t.store| <= s.maxVMs - 1) &&
      (!a.Check? ==>
         |t.store| + |t.pending| <= |s.store| + |s.pending| + if a.Revive? && a.id !in s.store then 1 else 0)
  {
  }

  /** The check races with the Put, but by no more than the number of racers: with at most `k` in
      flight, stored entries and creates past the check stay within the limit less one, plus `k`. */
  lemma RacingCreatesBounded(maxVMs: int, acts: seq<Act>, k: nat)
    requires IsRun(Orchestrator(maxVMs, {}, map[]), acts, k)
    ensures var s := Orchestrator(maxVMs, {}, map[]);
      var t := Final(s, acts, k);
      |t.store| + |t.pending| <= AtLeastZero(maxVMs - 1 + k) + Revivals(s, acts, k)
  {
    RunStaysWithin(Orchestrator(maxVMs, {}, map[]), acts, k, 0);
  }

  // ----- the bound is met

  lemma {:induction false} Chain(s: Orchestrator, a: seq<Act>, b: seq<Act>, k: nat)
    requires IsRun(s, a, k) && IsRun(Final(s, a, k), b, k)
    ensures IsRun(s, a + b, k) && Final(s, a + b, k) == Final(Final(s, a, k), b, k)
    decreases |a|
  {
    if a == [] {
      assert a + b == b;
    } else {
      Chain(Do(s, a[0]), a[1..], b, k);
      assert (a + b)[1..] == a[1..] + b;
    }
  }

  function Upto(n: nat): (ids: set<Id>)
    ensures |ids| == n && forall i: Id :: i in ids <==> i < n
  {
    if n == 0 then {} else Upto(n - 1) + {n - 1}
  }

  function Window(n: nat, q: nat, p: nat): (m: map<Call, Id>)
    requires q <= p
    ensures |m| == p - q && (forall c: Call :: c in m <==> q <= c < p) && (forall c :: c in m ==> m[c] == n + c)
  {
    if q == p then map[] else Window(n, q, p - 1)[p - 1 := n + p - 1]
  }

  /** `p` creates have been checked and the first `q` of them have been stored, on top of `n`
      entries stored before. */
  function Stage(maxVMs: int, n: nat, q: nat, p: nat): (s: Orchestrator)
    requires q <= p
    ensures |s.store| == n + q && |s.pending| == p - q
  {
    Orchestrator(maxVMs, Upto(n + q), Window(n, q, p))
  }

  lemma Idle(s: Orchestrator, k: nat)
    requires |s.pending| <= k
    ensures IsRun(s, [], k) && Final(s, [], k) == s
  {
  }

  lemma Once(s: Orchestrator, a: Act, k: nat)
    requires Allowed(s, a) && |s.pending| <= k && |Do(s, a).pending| <= k
    ensures IsRun(s, [a], k) && Final(s, [a], k) == Do(s, a)
  {
    assert [a][1..] == [];
  }

  lemma CheckStage(maxVMs: int, n: nat, p: nat, k: nat)
    requires n < maxVMs && p < k
    ensures IsRun(Stage(maxVMs, n, 0, p), [Check(p, n + p)], k)
    ensures Final(Stage(maxVMs, n, 0, p), [Check(p, n + p)], k) == Stage(maxVMs, n, 0, p + 1)
  {
    assert Do(Stage(maxVMs, n, 0, p), Check(p, n + p)).pending == Stage(maxVMs, n, 0, p + 1).pending;
    Once(Stage(maxVMs, n, 0, p), Check(p, n + p), k);
  }

  lemma UptoStep(n: nat)
    ensures Upto(n + 1) == Upto(n) + {n}
  {
  }

  lemma WindowStep(n: nat, q: nat, p: nat)
    requires q < p
    ensures q in Window(n, q, p) && Window(n, q, p)[q] == n + q && Window(n, q, p) - {q} == Window(n, q + 1, p)
  {
    hide Window;
  }

  lemma CommitStage(maxVMs: int, n: nat, q: nat, p: nat, k: nat)
    requires q < p <= k
    ensures IsRun(Stage(maxVMs, n, q, p), [Commit(q)], k)
    ensures Final(Stage(maxVMs, n, q, p), [Commit(q)], k) == Stage(maxVMs, n, q + 1, p)
  {
    hide Upto, Window, IsRun, Final;
    WindowStep(n, q, p);
    UptoStep(n + q);
    Once(Stage(maxVMs, n, q, p), Commit(q), k);
  }

  lemma {:induction false} Burst(maxVMs: int, n: nat, p: nat, k: nat) returns (acts: seq<Act>)
    requires n < maxVMs && p <= k
    ensures IsRun(Stage(maxVMs, n, 0, 0), acts, k)
    ensures Final(Stage(maxVMs, n, 0, 0), acts, k) == Stage(maxVMs, n, 0, p)
    decreases p
  {
    hide Stage, IsRun, Final;
    if p == 0 {
      Idle(Stage(maxVMs, n, 0, 0), k);
      acts := [];
    } else {
      acts := Burst(maxVMs, n, p - 1, k);
      CheckStage(maxVMs, n, p - 1, k);
      Chain(Stage(maxVMs, n, 0, 0), acts, [Check(p - 1, n + p - 1)], k);
      acts := acts + [Check(p - 1, n + p - 1)];
    }
  }

  lemma {:induction false} Drain(maxVMs: int, n: nat, q: nat, p: nat, k: nat) returns (acts: seq<Act>)
    requires q <= p <= k
    ensures IsRun(Stage(maxVMs, n, 0, p), acts, k)
    ensures Final(Stage(maxVMs, n, 0, p), acts, k) == Stage(maxVMs, n, q, p)
    decreases q
  {
    hide Stage, IsRun, Final;
    if q == 0 {
      Idle(Stage(maxVMs, n, 0, p), k);
      acts := [];
    } else {
      acts := Drain(maxVMs, n, q - 1, p, k);
      CommitStage(maxVMs, n, q - 1, p, k);
      Chain(Stage(maxVMs, n, 0, p), acts, [Commit(q - 1)], k);
      acts := acts + [Commit(q - 1)];
    }
  }

  /** One create after the other fills the store up to `n` entries. */
  lemma {:induction false} FillSerially(maxVMs: int, n: nat, k: nat) returns (acts: seq<Act>)
    requires n <= maxVMs && 0 < k
    ensures IsRun(Stage(maxVMs, 0, 0, 0), acts, k)
    ensures Final(Stage(maxVMs, 0, 0, 0), acts, k) == Stage(maxVMs, n, 0, 0)
    decreases n
  {
    hide Upto, Window, IsRun, Final;
    if n == 0 {
      Idle(Stage(maxVMs, 0, 0, 0), k);
      acts := [];
    } else {
      acts := FillSerially(maxVMs, n - 1, k);
      var a := Burst(maxVMs, n - 1, 1, k);
      var b := Drain(maxVMs, n - 1, 1, 1, k);
      assert Stage(maxVMs, n - 1, 1, 1) == Stage(maxVMs, n, 0, 0);
      Chain(Stage(maxVMs, n - 1, 0, 0), a, b, k);
      Chain(Stage(maxVMs, 0, 0, 0), acts, a + b, k);
      acts := acts + (a + b);
    }
  }

  /** The bound is met: `k` creates that all pass the check before the first Put overshoot the
      limit by `k` - 1. */
  lemma OvershootHappens(maxVMs: int, k: nat)
    requires 0 < maxVMs && 0 < k
    ensures var s := Orchestrator(maxVMs, {}, map[]);
      exists acts :: IsRun(s, acts, k) && |Final(s, acts, k).store| == maxVMs - 1 + k
  {
    hide Upto, Window, IsRun, Final;
    assert Stage(maxVMs, 0, 0, 0) == Orchestrator(maxVMs, {}, map[]);
    var a := FillSerially(maxVMs, maxVMs - 1, k);
    var b := Burst(maxVMs, maxVMs - 1, k, k);
    var c := Drain(maxVMs, maxVMs - 1, k, k, k);
    Chain(Stage(maxVMs, 0, 0, 0), a, b, k);
    Chain(Stage(maxVMs, 0, 0, 0), a + b, c, k);
    assert IsRun(Orchestrator(maxVMs, {}, map[]), a + b + c, k);
  }

  // ----- the Firecracker node is one such system

  ghost function Pending(ops: map<Call, Op>): map<Call, Id> {
    map c | c in ops && Creates(ops[c]) :: ops[c].id
  }

  ghost function Project(s: Node): Orchestrator {
    Orchestrator(s.maxVMs, s.store, Pending(s.ops))
  }

  lemma PendingAfter(ops: map<Call, Op>, ops': map<Call, Op>, c: Call)
    requires ops' - {c} == ops - {c}
    ensures Pending(ops') ==
      if c in ops' && Creates(ops'[c]) then Pending(ops)[c := ops'[c].id] else Pending(ops) - {c}
    ensures c in Pending(ops) <==> c in ops && Creates(ops[c])
    ensures c in Pending(ops) ==> Pending(ops)[c] == ops[c].id
  {
    OthersStay(ops, ops', c);
  }

  ghost predicate Matches(s: Node, e: Event, a: Act)
    requires Enabled(s, e)
  {
    && Allowed(Project(s), a) && Project(Apply(s, e)) == Do(Project(s), a)
    && (a.Revive? <==> e.PutBack?) && (a.Check? <==> e.BeginCreate?)
  }

  ghost function ActOf(s: Node, e: Event): Act
    requires Enabled(s, e)
  {
    match e
    case BeginCreate(c, id) => Check(c, id)
    case Store(c) => Commit(c)
    case Forget(c) => Remove(s.ops[c].id)
    case PutBack(c) => Revive(s.ops[c].id)
    case _ => Abort(e.c)
  }

  /** Every step of the node is one act of the system, or none. */
  lemma StepIsAct(s: Node, e: Event)
    requires Enabled(s, e)
    ensures Project(Apply(s, e)) == Project(s) || Matches(s, e, ActOf(s, e))
  {
    hide Apply, Enabled, AfterAllocate, AfterRelease, Pending;
    if e.Allocate? || e.GiveBack? || e.Release? {
      PoolStepIsAct(s, e);
    } else {
      OtherStepTouches(s, e);
      PendingAfter(s.ops, Apply(s, e).ops, e.c);
    }
  }

  /** What the other steps do to the store and to the creates in flight. */
  lemma OtherStepTouches(s: Node, e: Event)
    requires Enabled(s, e) && !e.Allocate? && !e.GiveBack? && !e.Release?
    ensures var t, creates := Apply(s, e), e.c in s.ops && Creates(s.ops[e.c]);
      && t.maxVMs == s.maxVMs && t.ops - {e.c} == s.ops - {e.c}
      && t.store == (if e.Store? || e.PutBack? then s.store + {s.ops[e.c].id}
                     else if e.Forget? then s.store - {s.ops[e.c].id} else s.store)
      && (e.BeginCreate? ==>
            !creates && |s.store| < s.maxVMs && e.c in t.ops && t.ops[e.c] == Checked(e.id))
      && (e.NoTemplate? || e.Store? ==> creates && e.c !in t.ops)
      && (e.BootFails? || e.MapVm? ==>
            creates && e.c in t.ops && Creates(t.ops[e.c]) && t.ops[e.c].id == s.ops[e.c].id)
      && (!e.BeginCreate? && !e.NoTemplate? && !e.Store? && !e.BootFails? && !e.MapVm? ==>
            !creates && !(e.c in t.ops && Creates(t.ops[e.c])))
  {
    hide AfterAllocate, AfterRelease;
    OtherStepFrame(s, e);
  }

  lemma PoolStepIsAct(s: Node, e: Event)
    requires Enabled(s, e) && (e.Allocate? || e.GiveBack? || e.Release?)
    ensures Project(Apply(s, e)) == Project(s) || Matches(s, e, ActOf(s, e))
  {
    hide Apply, Pending;
    PoolStepTouches(s, e);
    PendingAfter(s.ops, Apply(s, e).ops, e.c);
  }

  lemma PoolStepTouches(s: Node, e: Event)
    requires Enabled(s, e) && (e.Allocate? || e.GiveBack? || e.Release?)
    ensures var t := Apply(s, e);
      t.ops - {e.c} == s.ops - {e.c} && t.maxVMs == s.maxVMs
      && (e.Allocate? ==>
            t.store == s.store && (e.c in t.ops ==> t.ops[e.c].Booting? && t.ops[e.c].id == s.ops[e.c].id))
      && (e.GiveBack? ==> t.store == s.store && e.c !in t.ops)
      && (e.Release? ==> t.store == s.store && t.ops == s.ops[e.c := Destroyed(s.ops[e.c].id)])
  {
    hide AfterAllocate, AfterRelease;
    StepKeepsLimits(s, e);
    if e.Allocate? {
      AllocateTouches(s, e.c, e.fault, e.undoOk);
    } else if e.GiveBack? {
      ReleaseTouches(s, s.ops[e.c].slot, e.r, s.ops - {e.c});
    } else {
      ReleaseTouches(s, s.ops[e.c].slot, e.r, s.ops[e.c := Destroyed(s.ops[e.c].id)]);
    }
  }

  lemma ReleaseTouches(s: Node, slot: int, r: Removal, ops: map<Call, Op>)
    ensures AfterRelease(s, slot, r, ops).ops == ops && AfterRelease(s, slot, r, ops).store == s.store
  {
  }

  lemma NodeStepStaysWithin(s: Node, e: Event, k: nat, extra: nat)
    requires Enabled(s, e) && |Project(Apply(s, e)).pending| <= k
    requires |s.store| + |Project(s).pending| <= AtLeastZero(s.maxVMs - 1 + k) + extra
    ensures var t := Apply(s, e);
      |t.store| + |Project(t).pending| <= AtLeastZero(t.maxVMs - 1 + k) + extra + LatePut(s, e)
  {
    hide AfterAllocate, AfterRelease;
    StepIsAct(s, e);
    StepKeepsLimits(s, e);
    if Project(Apply(s, e)) != Project(s) {
      StepSizes(Project(s), ActOf(s, e));
    }
  }

  ghost function LatePut(s: Node, e: Event): nat
    requires Enabled(s, e)
  {
    if e.PutBack? && s.ops[e.c].id !in s.store then 1 else 0
  }

  /** How many Puts of Pause and Resume in a run of the node found their entry gone. */
  ghost function LatePuts(s: Node, es: seq<Event>): nat
    requires NodeSystem.IsRun(s, es)
    decreases |es|
  {
    if es == [] then 0 else LatePut(s, es[0]) + LatePuts(Apply(s, es[0]), es[1..])
  }

  /** At most `k` creates are in flight at any time. */
  ghost predicate CreatesWithin(s: Node, es: seq<Event>, k: nat)
    requires NodeSystem.IsRun(s, es)
    decreases |es|
  {
    |Pending(s.ops)| <= k && (es != [] ==> CreatesWithin(Apply(s, es[0]), es[1..], k))
  }

  lemma {:induction false} NodeRunStaysWithin(s: Node, es: seq<Event>, k: nat, extra: nat)
    requires NodeSystem.IsRun(s, es) && CreatesWithin(s, es, k)
    requires |s.store| + |Pending(s.ops)| <= AtLeastZero(s.maxVMs - 1 + k) + extra
    ensures var t := NodeSystem.Final(s, es);
      |t.store| + |Pending(t.ops)| <= AtLeastZero(s.maxVMs - 1 + k) + extra + LatePuts(s, es)
    decreases |es|
  {
    hide Enabled, Apply, Pending, LatePut;
    if es != [] {
      var t := Apply(s, es[0]);
      assert CreatesWithin(t, es[1..], k);
      NodeStepStaysWithin(s, es[0], k, extra);
      StepKeepsLimits(s, es[0]);
      NodeRunStaysWithin(t, es[1..], k, extra + LatePut(s, es[0]));
    }
  }

  /** So the bound holds over every run of the node. */
  lemma NodeCreatesBounded(maxVMs: int, hostInterface: string, es: seq<Event>, k: nat)
    requires Reachable(maxVMs, hostInterface, es) && CreatesWithin(NodeSystem.Init(maxVMs, hostInterface), es, k)
    ensures var s, t := NodeSystem.Init(maxVMs, hostInterface), After(maxVMs, hostInterface, es);
      |t.store| + |Pending(t.ops)| <= AtLeastZero(maxVMs - 1 + k) + LatePuts(s, es)
  {
    hide NodeSystem.IsRun, NodeSystem.Final, CreatesWithin;
    var s := NodeSystem.Init(maxVMs, hostInterface);
    assert Pending(s.ops) == map[];
    NodeRunStaysWithin(s, es, k, 0);
  }
}
