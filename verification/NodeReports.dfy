/** node/server.go: what a Firecracker node reports to the control plane.  The node registers with its limit as
    its room and reports the size of its store, which can be larger. */
module NodeReports {
  import opened Aggregates
  import opened SlotAddress
  import opened HostNetwork
  import opened SlotPool
  import opened NodeSystem
  import opened NodeAgreement
  import opened NodeCalls
  import CapacitySystem
  import Control = ControlSystem
  import Laws = ControlLaws
  import Rows = ControlTables

  /** Calls past the map insert and before the store's Put. */
  ghost function PublishingIds(ops: map<Call, Op>): set<Id> {
    set c | c in ops && ops[c].Mapped? :: ops[c].id
  }

  /** Entries the runtime no longer runs: being deleted, or put back late. */
  ghost function Gone(s: Node, late: set<Id>): set<Id> { RemovingIds(s.ops) * s.store + late }

  /** The store is made of what runs, but for the creates still to be stored, and of what is gone. */
  lemma StoreSplits(maxVMs: int, hostInterface: string, es: seq<Event>)
    requires Fresh(maxVMs, hostInterface, es)
    ensures var s, gone := After(maxVMs, hostInterface, es),
          Gone(After(maxVMs, hostInterface, es), LateEntries(maxVMs, hostInterface, es));
      && s.store == (s.vms.Keys - PublishingIds(s.ops)) + gone
      && (s.vms.Keys - PublishingIds(s.ops)) !! gone
      && |s.store| == |s.vms| - |PublishingIds(s.ops)| + |gone|
  {
    hide After, Fresh, Safe, LateEntries, Lingers;
    FreshIsReachable(maxVMs, hostInterface, es);
    FreshRunAgrees(maxVMs, hostInterface, es);
    RevivedAreLate(maxVMs, hostInterface, es);
    SplitsWhenAgreeing(After(maxVMs, hostInterface, es));
  }

  lemma SplitsWhenAgreeing(s: Node)
    requires Agreeing(s)
    ensures var gone := Gone(s, s.hist.revived);
      && s.store == (s.vms.Keys - PublishingIds(s.ops)) + gone
      && (s.vms.Keys - PublishingIds(s.ops)) !! gone
      && |s.store| == |s.vms| - |PublishingIds(s.ops)| + |gone|
  {
    hide Orphans, Agree, PublishingIds, RemovingIds;
    Splits(s.vms.Keys, s.store, s.ops, s.hist.revived);
    Sizes(s.vms.Keys, PublishingIds(s.ops), s.store, Gone(s, s.hist.revived));
    assert |s.vms| == |s.vms.Keys|;
  }

  lemma Splits(vms: set<Id>, store: set<Id>, ops: map<Call, Op>, revived: set<Id>)
    requires Agree(vms, store, ops, revived)
    ensures PublishingIds(ops) <= vms
    ensures store == (vms - PublishingIds(ops)) + (RemovingIds(ops) * store + revived)
    ensures (vms - PublishingIds(ops)) !! (RemovingIds(ops) * store + revived)
  {
    forall i | i in vms && i !in store ensures i in PublishingIds(ops) {
      var c :| c in ops && ops[c] == Mapped(i);
    }
    forall i | i in store && i !in vms && i !in revived ensures i in RemovingIds(ops) {
      var c :| c in ops && Removes(ops[c]) && ops[c].id == i;
      assert c in RemovingCalls(ops);
    }
  }

  lemma Sizes(a: set<Id>, b: set<Id>, store: set<Id>, gone: set<Id>)
    requires b <= a && store == (a - b) + gone && (a - b) !! gone
    ensures |store| == |a| - |b| + |gone|
  {
    assert a == (a - b) + b;
  }

  /** A node that registered with its limit as its room reports a load within it if and only if the entries that
      are gone fit in the room left by the sandboxes that run, but for those not stored yet; and it exceeds its
      room at most by the deletes the runtime has served and the late entries. */
  lemma ReportWithinRoomIff(maxVMs: int, hostInterface: string, es: seq<Event>,
                            c: Control.Control, row: Rows.NodeId, now: int)
    requires Fresh(maxVMs, hostInterface, es)
    requires row in c.nodes && c.nodes[row].max == maxVMs
    ensures var s, late := After(maxVMs, hostInterface, es), LateEntries(maxVMs, hostInterface, es);
      var report := Control.Heartbeat(row, |s.store|, now);
      var reported := Control.Apply(c, report).nodes[row];
      && (Laws.Plausible(c, report) <==> |Gone(s, late)| <= maxVMs - |s.vms| + |PublishingIds(s.ops)|)
      && 0 <= reported.running <= CapacitySystem.AtLeastZero(reported.max) + |RemovingCalls(s.ops)| + |late|
      && (NoPutBack(es) ==> late == {})
  {
    hide After, Fresh, Reachable, LateEntries, RemovingCalls, Gone, PublishingIds;
    FreshIsReachable(maxVMs, hostInterface, es);
    StoreBounded(maxVMs, hostInterface, es);
    StoreSplits(maxVMs, hostInterface, es);
    if maxVMs <= 0 {
      NothingStarts(maxVMs, hostInterface, es);
    }
  }

  lemma NothingStarts(maxVMs: int, hostInterface: string, es: seq<Event>)
    requires maxVMs <= 0 && Reachable(maxVMs, hostInterface, es)
    ensures After(maxVMs, hostInterface, es).store == {}
  {
    assert es == [];
  }

  // ----- the excess is real

  /** The first steps of a Delete: the runtime is done and the store is not. */
  function RuntimeDeletes(d: Call, id: Id): seq<Event> {
    [BeginDelete(d, id)] + ([Unmap(d)] + [Release(d, GOOD.giveBack)])
  }

  lemma NoPutBackIn(s: Node, c: Call, d: Call, id: Id)
    ensures NoPutBack(OnceChecked(s, c, GOOD)) && NoPutBack(RuntimeDeletes(d, id))
  {
    hide AllocateResult;
  }

  lemma NoPutBackJoins(a: seq<Event>, b: seq<Event>)
    requires NoPutBack(a) && NoPutBack(b)
    ensures NoPutBack(a + b)
  {
  }

  lemma DeletedHalfway(s: Node, d: Call, id: Id)
    requires d !in s.ops && id in s.store && id in s.vms
    ensures IsRun(s, RuntimeDeletes(d, id)) && FreshIds(s, RuntimeDeletes(d, id))
    ensures var t := Final(s, RuntimeDeletes(d, id));
      && t.store == s.store && t.ops == s.ops[d := Destroyed(id)] && t.maxVMs == s.maxVMs
      && t.net == ReleaseResult(s.net, s.vms[id], GOOD.giveBack)
  {
    hide ReleaseResult, Plus, NewSlot, Undeleted, Unused;
    var s1 := Apply(s, BeginDelete(d, id));
    var s2 := Apply(s1, Unmap(d));
    Prepend(s2, Release(d, GOOD.giveBack), []);
    assert [Release(d, GOOD.giveBack)] + [] == [Release(d, GOOD.giveBack)];
    Prepend(s1, Unmap(d), [Release(d, GOOD.giveBack)]);
    Prepend(s, BeginDelete(d, id), [Unmap(d)] + [Release(d, GOOD.giveBack)]);
  }

  /** What a create past the count check adds while a slot is free. */
  lemma CheckedCreate(s: Node, c: Call, id: Id)
    requires c in s.ops && s.ops[c] == Checked(id) && InRange(s.net) && |s.net.taken| < s.net.maxSlots
    ensures IsRun(s, OnceChecked(s, c, GOOD)) && FreshIds(s, OnceChecked(s, c, GOOD))
    ensures var t := Final(s, OnceChecked(s, c, GOOD));
      && t.store == s.store + {id} && t.ops == s.ops - {c} && t.maxVMs == s.maxVMs
      && id in t.vms && t.vms.Keys == s.vms.Keys + {id} && t.vms[id] !in s.net.taken
      && InRange(t.net) && t.net.taken == s.net.taken + {t.vms[id]} && t.net.maxSlots == s.net.maxSlots
  {
    hide AllocateResult, ReleaseResult, OnceChecked, IsRun, Final, FreshIds;
    AllocateOnward(s, c, id, GOOD);
    AllocateRefusesIffFull(s.net, true);
    AllocateFirstFit(s.net, NoFault, true);
    AllocateKeepsSize(s.net, NoFault, true);
  }

  lemma AllocateKeepsSize(n: Network, fault: Fault, undoOk: bool)
    ensures AllocateResult(n, fault, undoOk).0.maxSlots == n.maxSlots
  {
    hide NewSlot, RulesOf, LeftBehind, LeastFree, Plus;
  }

  /** The store holds IDs up to `n + i`: `i` creates have been stored and deleted again as far as the runtime
      goes, and calls `i` to `d` have passed the check. */
  ghost predicate Stage(s: Node, n: nat, i: nat, d: nat) {
    && i <= d && s.store == CapacitySystem.Upto(n + i)
    && InRange(s.net) && |s.net.taken| < s.net.maxSlots
    && StageCalls(s.ops, n, i, d)
  }

  ghost predicate StageCalls(ops: map<Call, Op>, n: nat, i: nat, d: nat) {
    && (forall c: Call :: i <= c <= d ==> c in ops && ops[c] == Checked(n + c))
    && (forall c: Call :: c in ops ==> c <= d + i)
    && |RemovingCalls(ops)| == i
  }

  lemma OneMoreGone(s: Node, n: nat, i: nat, d: nat) returns (es: seq<Event>)
    requires Stage(s, n, i, d) && i < d
    ensures IsRun(s, es) && FreshIds(s, es) && NoPutBack(es) && Stage(Final(s, es), n, i + 1, d)
  {
    hide OnceChecked, RuntimeDeletes, IsRun, Final, FreshIds, InRange, Enabled, Apply, NoPutBack, Stage, ReleaseResult,
      RemovingCalls;
    var call := d + 1 + i;
    StageHas(s, n, i, d);
    CheckedCreate(s, i, n + i);
    var t := Final(s, OnceChecked(s, i, GOOD));
    DeletedHalfway(t, call, n + i);
    var u := Final(t, RuntimeDeletes(call, n + i));
    Released(t.net, t.vms[n + i]);
    NextStage(s, u, n, i, d);
    Chain(s, OnceChecked(s, i, GOOD), RuntimeDeletes(call, n + i));
    NoPutBackIn(s, i, call, n + i);
    NoPutBackJoins(OnceChecked(s, i, GOOD), RuntimeDeletes(call, n + i));
    es := OnceChecked(s, i, GOOD) + RuntimeDeletes(call, n + i);
  }

  lemma StageHas(s: Node, n: nat, i: nat, d: nat)
    requires Stage(s, n, i, d)
    ensures i in s.ops && s.ops[i] == Checked(n + i) && d + 1 + i !in s.ops
    ensures InRange(s.net) && |s.net.taken| < s.net.maxSlots
  {
    hide InRange;
  }

  lemma NextStage(s: Node, u: Node, n: nat, i: nat, d: nat)
    requires Stage(s, n, i, d) && i < d
    requires u.store == s.store + {n + i} && u.ops == (s.ops - {i})[d + 1 + i := Destroyed(n + i)]
    requires InRange(u.net) && u.net.taken == s.net.taken && u.net.maxSlots == s.net.maxSlots
    ensures Stage(u, n, i + 1, d)
  {
    hide InRange, StageCalls;
    NextCalls(s.ops, n, i, d);
    CapacitySystem.UptoStep(n + i);
  }

  lemma NextCalls(ops: map<Call, Op>, n: nat, i: nat, d: nat)
    requires StageCalls(ops, n, i, d) && i < d
    ensures StageCalls((ops - {i})[d + 1 + i := Destroyed(n + i)], n, i + 1, d)
  {
    hide RemovingCalls;
    OneMoreRemoving(ops, i, d + 1 + i, n + i);
  }

  lemma OneMoreRemoving(ops: map<Call, Op>, c: Call, d: Call, id: Id)
    requires c in ops && ops[c].Checked? && d !in ops
    ensures |RemovingCalls((ops - {c})[d := Destroyed(id)])| == |RemovingCalls(ops)| + 1
  {
    assert RemovingCalls((ops - {c})[d := Destroyed(id)]) == RemovingCalls(ops) + {d};
  }

  /** After `d` such deletes the last create is stored over a full limit. */
  lemma {:induction false} LastOne(s: Node, n: nat, i: nat, d: nat) returns (es: seq<Event>)
    requires Stage(s, n, i, d)
    ensures IsRun(s, es) && FreshIds(s, es) && NoPutBack(es)
    ensures |Final(s, es).store| == n + d + 1 && |RemovingCalls(Final(s, es).ops)| == d
    decreases d - i
  {
    hide OnceChecked, IsRun, Final, FreshIds, InRange, Enabled, Apply, NoPutBack;
    if i == d {
      CheckedCreate(s, d, n + d);
      assert RemovingCalls(s.ops - {d}) == RemovingCalls(s.ops);
      NoPutBackIn(s, d, 0, 0);
      es := OnceChecked(s, d, GOOD);
    } else {
      var first := OneMoreGone(s, n, i, d);
      var rest := LastOne(Final(s, first), n, i + 1, d);
      Chain(s, first, rest);
      NoPutBackJoins(first, rest);
      es := first + rest;
    }
  }

  lemma Released(n: Network, id: int)
    requires InRange(n)
    ensures var q := ReleaseResult(n, id, GOOD.giveBack);
      InRange(q) && q.maxSlots == n.maxSlots && q.taken == n.taken - {id}
  {
    hide NewSlot, Deleted, Minus;
  }

  ghost predicate Serving(s: Node, n: nat) {
    && s.ops == map[] && s.store == CapacitySystem.Upto(n) && s.vms.Keys == CapacitySystem.Upto(n) && |s.net.taken| == n
    && InRange(s.net) && s.net.maxSlots == s.maxVMs
  }

  lemma {:induction false} FillNode(maxVMs: int, hostInterface: string, n: nat) returns (es: seq<Event>)
    requires n <= maxVMs && 0 < maxVMs
    ensures Fresh(maxVMs, hostInterface, es) && Serving(After(maxVMs, hostInterface, es), n) && NoPutBack(es)
    ensures After(maxVMs, hostInterface, es).maxVMs == maxVMs
  {
    hide OnceChecked, InRange, Apply, Enabled, FreshIds, IsRun, Final;
    if n == 0 {
      es := [];
      Start(maxVMs, hostInterface);
    } else {
      var before := FillNode(maxVMs, hostInterface, n - 1);
      var s := After(maxVMs, hostInterface, before);
      ServeOneMore(s, n - 1);
      var more := [BeginCreate(0, n - 1)] + OnceChecked(Apply(s, BeginCreate(0, n - 1)), 0, GOOD);
      Chain(Init(maxVMs, hostInterface), before, more);
      NoPutBackIn(Apply(s, BeginCreate(0, n - 1)), 0, 0, 0);
      es := before + more;
    }
  }

  lemma Start(maxVMs: int, hostInterface: string)
    requires 0 < maxVMs
    ensures Fresh(maxVMs, hostInterface, []) && Serving(After(maxVMs, hostInterface, []), 0)
    ensures After(maxVMs, hostInterface, []).maxVMs == maxVMs
  {
  }

  lemma ServeOneMore(s: Node, n: nat)
    requires Serving(s, n) && n < s.maxVMs
    ensures Enabled(s, BeginCreate(0, n))
    ensures var es := [BeginCreate(0, n)] + OnceChecked(Apply(s, BeginCreate(0, n)), 0, GOOD);
      IsRun(s, es) && FreshIds(s, es) && Serving(Final(s, es), n + 1) && Final(s, es).maxVMs == s.maxVMs
  {
    hide OnceChecked, IsRun, Final, FreshIds, InRange;
    var t := Apply(s, BeginCreate(0, n));
    CheckedCreate(t, 0, n);
    Prepend(s, BeginCreate(0, n), OnceChecked(t, 0, GOOD));
    assert CapacitySystem.Upto(n + 1) == CapacitySystem.Upto(n) + {n};
    assert t.ops - {0} == map[];
  }

  function Checks(n: nat, m: nat): (ops: map<Call, Op>)
    ensures forall c: Call :: c in ops <==> c < m
    ensures forall c: Call :: c < m ==> ops[c] == Checked(n + c)
  {
    if m == 0 then map[] else Checks(n, m - 1)[m - 1 := Checked(n + m - 1)]
  }

  /** `m` creates pass the check one after the other. */
  lemma {:induction false} ManyChecks(s: Node, n: nat, m: nat) returns (es: seq<Event>)
    requires Serving(s, n) && n < s.maxVMs
    ensures IsRun(s, es) && FreshIds(s, es) && NoPutBack(es) && Final(s, es) == s.(ops := Checks(n, m))
  {
    hide InRange, IsRun, Final, FreshIds, Enabled, Apply, Checks, NoPutBack;
    if m == 0 {
      es := [];
      NoCheck(s, n);
    } else {
      var before := ManyChecks(s, n, m - 1);
      NextCheck(s, n, m - 1);
      Chain(s, before, [BeginCreate(m - 1, n + m - 1)]);
      NoPutBackJoins(before, [BeginCreate(m - 1, n + m - 1)]);
      es := before + [BeginCreate(m - 1, n + m - 1)];
    }
  }

  lemma NoCheck(s: Node, n: nat)
    requires s.ops == map[]
    ensures IsRun(s, []) && FreshIds(s, []) && NoPutBack([]) && Final(s, []) == s.(ops := Checks(n, 0))
  {
  }

  lemma NextCheck(s: Node, n: nat, m: nat)
    requires Serving(s, n) && n < s.maxVMs
    ensures var t, e := s.(ops := Checks(n, m)), BeginCreate(m, n + m);
      IsRun(t, [e]) && FreshIds(t, [e]) && NoPutBack([e]) && Final(t, [e]) == s.(ops := Checks(n, m + 1))
  {
    hide InRange, Enabled, Apply, Unused, Checks, IsRun, FreshIds, Final;
    var t, e := s.(ops := Checks(n, m)), BeginCreate(m, n + m);
    Passes(t, m, n + m);
    NotYetUsed(s, n, m);
    ChecksStep(n, m);
    OneCheck(t, e);
  }

  lemma Passes(t: Node, c: Call, id: Id)
    requires c !in t.ops && |t.store| < t.maxVMs
    ensures Enabled(t, BeginCreate(c, id)) && Apply(t, BeginCreate(c, id)) == t.(ops := t.ops[c := Checked(id)])
  {
    hide AfterAllocate, AfterRelease;
  }

  lemma NotYetUsed(s: Node, n: nat, m: nat)
    requires Serving(s, n)
    ensures Unused(s.(ops := Checks(n, m)), n + m)
  {
    hide InRange;
  }

  lemma ChecksStep(n: nat, m: nat)
    ensures Checks(n, m)[m := Checked(n + m)] == Checks(n, m + 1)
  {
  }

  lemma OneCheck(t: Node, e: Event)
    requires Enabled(t, e) && e.BeginCreate? && Unused(t, e.id)
    ensures IsRun(t, [e]) && FreshIds(t, [e]) && NoPutBack([e]) && Final(t, [e]) == Apply(t, e)
  {
    hide Enabled, Apply, Unused;
    Prepend(t, e, []);
    assert [e] + [] == [e];
  }

  /** So on every node, without any Pause, the report can exceed the room by any number of served deletes: the
      bound on the store is met. */
  lemma ReportExceedsRoom(maxVMs: int, hostInterface: string, d: nat)
    requires 0 < maxVMs
    ensures exists es ::
      (Fresh(maxVMs, hostInterface, es) && NoPutBack(es)
       && |After(maxVMs, hostInterface, es).store| == maxVMs + d
       && |RemovingCalls(After(maxVMs, hostInterface, es).ops)| == d)
  {
    hide OnceChecked, IsRun, Final, FreshIds, InRange, NoPutBack, RemovingCalls, Checks;
    var n := maxVMs - 1;
    var before := FillNode(maxVMs, hostInterface, n);
    var s := After(maxVMs, hostInterface, before);
    var checks := ManyChecks(s, n, d + 1);
    CheckedStage(s, n, d);
    var last := LastOne(Final(s, checks), n, 0, d);
    Chain(s, checks, last);
    Chain(Init(maxVMs, hostInterface), before, checks + last);
    NoPutBackJoins(checks, last);
    NoPutBackJoins(before, checks + last);
    assert Fresh(maxVMs, hostInterface, before + (checks + last));
  }

  lemma CheckedStage(s: Node, n: nat, d: nat)
    requires Serving(s, n) && n < s.maxVMs
    ensures Stage(s.(ops := Checks(n, d + 1)), n, 0, d)
  {
    hide InRange, StageCalls, Checks;
    CheckedCalls(n, d);
  }

  lemma CheckedCalls(n: nat, d: nat)
    ensures StageCalls(Checks(n, d + 1), n, 0, d)
  {
    assert RemovingCalls(Checks(n, d + 1)) == {};
  }
}
