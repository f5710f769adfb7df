/** Whole calls as runs of the node system: what a Create or a Delete amounts to when no other
    call steps in between, and the two schedules in which store and runtime fall apart. */
module NodeCalls {
  import opened Wrappers
  import opened Aggregates
  import opened SlotAddress
  import opened HostNetwork
  import opened SlotPool
  import opened NodeSystem
  import opened NodeAgreement

  lemma Prepend(s: Node, e: Event, rest: seq<Event>)
    requires Enabled(s, e) && IsRun(Apply(s, e), rest)
    ensures IsRun(s, [e] + rest) && Final(s, [e] + rest) == Final(Apply(s, e), rest)
    ensures FreshIds(s, [e] + rest) <==> (e.BeginCreate? ==> Unused(s, e.id)) && FreshIds(Apply(s, e), rest)
  {
    hide Enabled, Apply, Unused;
    assert ([e] + rest)[1..] == rest;
  }

  lemma {:induction false} Chain(s: Node, es: seq<Event>, rest: seq<Event>)
    requires IsRun(s, es) && IsRun(Final(s, es), rest)
    ensures IsRun(s, es + rest) && Final(s, es + rest) == Final(Final(s, es), rest)
    ensures FreshIds(s, es + rest) <==> FreshIds(s, es) && FreshIds(Final(s, es), rest)
    decreases |es|
  {
    hide Enabled, Apply, Unused;
    if es == [] {
      assert es + rest == rest;
    } else {
      Chain(Apply(s, es[0]), es[1..], rest);
      Prepend(s, es[0], es[1..] + rest);
      assert es + rest == [es[0]] + (es[1..] + rest);
    }
  }

  /** How the external steps of one Create turn out. */
  datatype CreateOutcome = CreateOutcome(
    templateExists: bool, fault: Fault, undoOk: bool, boots: bool, giveBack: Removal)

  ghost function SlotGranted(s: Node, o: CreateOutcome): Option<int>
  {
    AllocateResult(s.net, o.fault, o.undoOk).1
  }

  /** The steps of a Create that passes the count check. */
  ghost function CreateSteps(s: Node, c: Call, id: Id, o: CreateOutcome): seq<Event>
  {
    [BeginCreate(c, id)] + if o.templateExists then OnceChecked(s, c, o) else [NoTemplate(c)]
  }

  ghost function OnceChecked(s: Node, c: Call, o: CreateOutcome): seq<Event>
  {
    [Allocate(c, o.fault, o.undoOk)] +
    (if SlotGranted(s, o) == None then []
     else if o.boots then [MapVm(c), Store(c)]
     else [BootFails(c), GiveBack(c, o.giveBack)])
  }

  /** Network, map and store after a Create: all or nothing for slots, map and store. */
  ghost function Created(net: Network, vms: map<Id, int>, store: set<Id>, id: Id, o: CreateOutcome)
    : (Network, map<Id, int>, set<Id>)
  {
    if !o.templateExists then (net, vms, store)
    else
      var (q, slot) := AllocateResult(net, o.fault, o.undoOk);
      if slot == None then (q, vms, store)
      else if o.boots then (q, vms[id := slot.value], store + {id})
      else (ReleaseResult(q, slot.value, o.giveBack), vms, store)
  }

  /** The store gains the ID exactly when the runtime's map does. */
  lemma CreatedStore(net: Network, vms: map<Id, int>, store: set<Id>, id: Id, o: CreateOutcome)
    ensures var (n, v, s) := Created(net, vms, {}, id, o);
      Created(net, vms, store, id, o) == (n, v, if id in s then store + {id} else store)
  {
    hide AllocateResult, ReleaseResult;
  }

  lemma CreateAlone(s: Node, c: Call, id: Id, o: CreateOutcome)
    requires c !in s.ops && |s.store| < s.maxVMs
    ensures IsRun(s, CreateSteps(s, c, id, o))
    ensures FreshIds(s, CreateSteps(s, c, id, o)) <==> Unused(s, id)
    ensures var t := Final(s, CreateSteps(s, c, id, o));
      (t.net, t.vms, t.store) == Created(s.net, s.vms, s.store, id, o)
      && t.ops == s.ops && t.maxVMs == s.maxVMs && t.hist.revived == s.hist.revived
  {
    hide AllocateResult, ReleaseResult, AllocateLeftovers, Plus, NewSlot, Undeleted, Unused;
    var s1 := Apply(s, BeginCreate(c, id));
    assert s1.ops - {c} == s.ops;
    if !o.templateExists {
      Prepend(s1, NoTemplate(c), []);
      assert [NoTemplate(c)] + [] == [NoTemplate(c)];
      Prepend(s, BeginCreate(c, id), [NoTemplate(c)]);
    } else {
      AllocateOnward(s1, c, id, o);
      Prepend(s, BeginCreate(c, id), OnceChecked(s1, c, o));
    }
  }

  lemma AllocateOnward(s: Node, c: Call, id: Id, o: CreateOutcome)
    requires o.templateExists && c in s.ops && s.ops[c] == Checked(id)
    ensures IsRun(s, OnceChecked(s, c, o)) && FreshIds(s, OnceChecked(s, c, o))
    ensures var t := Final(s, OnceChecked(s, c, o));
      (t.net, t.vms, t.store) == Created(s.net, s.vms, s.store, id, o)
      && t.ops == s.ops - {c} && t.maxVMs == s.maxVMs && t.hist.revived == s.hist.revived
  {
    hide AllocateResult, ReleaseResult, AllocateLeftovers, Plus, NewSlot, Undeleted, Unused;
    var e := Allocate(c, o.fault, o.undoOk);
    var t := Apply(s, e);
    if SlotGranted(s, o) == None {
      Prepend(s, e, []);
    } else if o.boots {
      TwoSteps(t, MapVm(c), Store(c));
      Prepend(s, e, [MapVm(c), Store(c)]);
    } else {
      TwoSteps(t, BootFails(c), GiveBack(c, o.giveBack));
      Prepend(s, e, [BootFails(c), GiveBack(c, o.giveBack)]);
    }
  }

  lemma TwoSteps(s: Node, d: Event, e: Event)
    requires Enabled(s, d) && Enabled(Apply(s, d), e) && !d.BeginCreate? && !e.BeginCreate?
    ensures IsRun(s, [d, e]) && FreshIds(s, [d, e]) && Final(s, [d, e]) == Apply(Apply(s, d), e)
  {
    hide Enabled, Apply, Unused;
    Prepend(Apply(s, d), e, []);
    assert [e] + [] == [e];
    Prepend(s, d, [e]);
    assert [d] + [e] == [d, e];
  }

  /** The steps of a Delete of a stored ID. */
  ghost function DeleteSteps(s: Node, c: Call, id: Id, r: Removal): seq<Event> {
    [BeginDelete(c, id), Unmap(c)] + (if id in s.vms then [Release(c, r), Forget(c)] else [Forget(c)])
  }

  /** Network, map and store after a Delete. */
  ghost function DeletedFrom(net: Network, vms: map<Id, int>, store: set<Id>, id: Id, r: Removal)
    : (Network, map<Id, int>, set<Id>)
  {
    (if id in vms then ReleaseResult(net, vms[id], r) else net, vms - {id}, store - {id})
  }

  lemma DeleteAlone(s: Node, c: Call, id: Id, r: Removal)
    requires c !in s.ops && id in s.store
    ensures IsRun(s, DeleteSteps(s, c, id, r)) && FreshIds(s, DeleteSteps(s, c, id, r))
    ensures var t := Final(s, DeleteSteps(s, c, id, r));
      (t.net, t.vms, t.store) == DeletedFrom(s.net, s.vms, s.store, id, r)
      && t.ops == s.ops && t.maxVMs == s.maxVMs && t.hist.revived == s.hist.revived - {id}
  {
    hide ReleaseResult, Plus, NewSlot, Undeleted, Unused;
    TwoSteps(s, BeginDelete(c, id), Unmap(c));
    var t := Final(s, [BeginDelete(c, id), Unmap(c)]);
    if id in s.vms {
      TwoSteps(t, Release(c, r), Forget(c));
      Chain(s, [BeginDelete(c, id), Unmap(c)], [Release(c, r), Forget(c)]);
    } else {
      assert s.vms - {id} == s.vms;
      Prepend(t, Forget(c), []);
      assert [Forget(c)] + [] == [Forget(c)];
      Chain(s, [BeginDelete(c, id), Unmap(c)], [Forget(c)]);
    }
  }

  /** From any state, a Pause whose runtime step precedes a complete Delete of the same sandbox
      brings the deleted entry back: stored, with nothing running behind it. */
  lemma LatePauseRevives(s: Node, p: Call, c: Call, id: Id, r: Removal)
    requires p !in s.ops && c !in s.ops && p != c && id in s.store && id in s.vms
    ensures exists es :: IsRun(s, es) && FreshIds(s, es) && RevivedIn(s, Final(s, es), id)
  {
    hide ReleaseResult, Plus, NewSlot, Undeleted, Unused, Enabled, Apply;
    LatePut(s, p, c, id, r);
    var first, middle, last := [BeginPause(p, id), PauseVm(p)], DeleteSteps(s, c, id, r), [PutBack(p)];
    Chain(s, first, middle);
    Chain(s, first + middle, last);
    var t := Final(s, first + middle + last);
    assert RevivedIn(s, t, id);
  }

  /** The calls are over, and the entry is stored with nothing running behind it. */
  ghost predicate RevivedIn(s: Node, t: Node, id: Id) {
    t.ops == s.ops && id in t.store && id !in t.vms && id in t.hist.revived
  }

  lemma LatePut(s: Node, p: Call, c: Call, id: Id, r: Removal)
    requires p !in s.ops && c !in s.ops && p != c && id in s.store && id in s.vms
    ensures var first, middle, last := [BeginPause(p, id), PauseVm(p)], DeleteSteps(s, c, id, r), [PutBack(p)];
      && IsRun(s, first) && FreshIds(s, first)
      && IsRun(Final(s, first), middle) && FreshIds(Final(s, first), middle)
      && IsRun(Final(Final(s, first), middle), last) && FreshIds(Final(Final(s, first), middle), last)
      && RevivedIn(s, Final(Final(Final(s, first), middle), last), id)
  {
    hide ReleaseResult, Plus, NewSlot, Undeleted, Unused;
    TwoSteps(s, BeginPause(p, id), PauseVm(p));
    var t := Final(s, [BeginPause(p, id), PauseVm(p)]);
    assert t.ops == s.ops[p := Paused(id)] && t.vms == s.vms;
    DeleteAlone(t, c, id, r);
    var u := Final(t, DeleteSteps(s, c, id, r));
    Prepend(u, PutBack(p), []);
    assert [PutBack(p)] + [] == [PutBack(p)];
    assert s.ops[p := Paused(id)] - {p} == s.ops;
  }

  // ----- a slot lost to a reused ID

  lemma {:induction false} OrphansStay(s: Node, es: seq<Event>)
    requires Safe(s) && IsRun(s, es)
    ensures Orphans(s) <= Orphans(Final(s, es)) && Orphans(Final(s, es)) <= Final(s, es).net.taken
    decreases |es|
  {
    hide Ledger, HostTracked, Apply, Enabled, Orphans;
    if es == [] {
      OrphansTaken(s);
    } else {
      StepKeepsSafe(s, es[0]);
      OrphanedByReuseOnly(s, es[0]);
      OrphansStay(Apply(s, es[0]), es[1..]);
    }
  }

  lemma OrphansTaken(s: Node)
    requires Owned(s)
    ensures Orphans(s) <= s.net.taken
  {
  }

  /** A create under an ID that already runs, with nothing in between, takes the slot from the older
      sandbox for good: no later step returns it. */
  lemma ReuseLosesSlot(s: Node, c: Call, id: Id, o: CreateOutcome, later: seq<Event>)
    requires Safe(s) && c !in s.ops && |s.store| < s.maxVMs && id in s.vms
    requires o.templateExists && SlotGranted(s, o) != None && o.boots
    requires IsRun(s, CreateSteps(s, c, id, o) + later)
    ensures var t := Final(s, CreateSteps(s, c, id, o) + later);
      s.vms[id] in Orphans(t) && s.vms[id] in t.net.taken
  {
    hide AllocateResult, ReleaseResult, AllocateLeftovers, Plus, NewSlot, Undeleted, Safe, Orphans, RollsBack;
    var begin, allocate, enter := BeginCreate(c, id), Allocate(c, o.fault, o.undoOk), MapVm(c);
    var s1 := Apply(s, begin);
    var s2 := Apply(s1, allocate);
    var s3 := Apply(s2, enter);
    var steps := CreateSteps(s, c, id, o);
    assert steps + later == [begin] + ([allocate] + ([enter] + ([Store(c)] + later)));
    Behead(s, begin, [allocate] + ([enter] + ([Store(c)] + later)));
    Behead(s1, allocate, [enter] + ([Store(c)] + later));
    Behead(s2, enter, [Store(c)] + later);
    StepKeepsSafe(s, begin);
    StepKeepsSafe(s1, allocate);
    StepKeepsSafe(s2, enter);
    OrphanedByReuseOnly(s2, enter);
    OrphansStay(s3, [Store(c)] + later);
  }

  lemma Behead(s: Node, e: Event, rest: seq<Event>)
    requires IsRun(s, [e] + rest)
    ensures Enabled(s, e) && IsRun(Apply(s, e), rest)
    ensures Final(s, [e] + rest) == Final(Apply(s, e), rest)
  {
    hide Enabled, Apply;
    assert ([e] + rest)[1..] == rest;
  }

  const GOOD := CreateOutcome(true, NoFault, true, true, Removal(true, true, true, true))

  /** It happens on every node with room for two: create twice under one ID. */
  lemma ReuseHappens(maxVMs: int, hostInterface: string, id: Id)
    requires maxVMs >= 2
    ensures exists es :: Reachable(maxVMs, hostInterface, es) && Orphans(After(maxVMs, hostInterface, es)) != {}
  {
    hide AllocateResult, Safe, Orphans, CreateSteps, IsRun, Final, Enabled, Apply;
    var s := Init(maxVMs, hostInterface);
    CreateAlone(s, 0, id, GOOD);
    var t := Final(s, CreateSteps(s, 0, id, GOOD));
    InitIsSafe(maxVMs, hostInterface);
    RunKeepsSafe(s, CreateSteps(s, 0, id, GOOD));
    RunKeepsLimits(s, CreateSteps(s, 0, id, GOOD));
    FirstCreate(maxVMs, hostInterface, id);
    CreateAlone(t, 0, id, GOOD);
    var es := CreateSteps(t, 0, id, GOOD);
    assert es + [] == es;
    ReuseLosesSlot(t, 0, id, GOOD, []);
    Chain(s, CreateSteps(s, 0, id, GOOD), es);
    assert Reachable(maxVMs, hostInterface, CreateSteps(s, 0, id, GOOD) + es);
  }

  lemma FirstCreate(maxVMs: int, hostInterface: string, id: Id)
    requires maxVMs >= 2
    ensures var s := Init(maxVMs, hostInterface);
      var (net, vms, store) := Created(s.net, s.vms, s.store, id, GOOD);
      && id in vms && store == {id} && net.maxSlots == maxVMs && AllocateResult(net, NoFault, true).1 != None
  {
    hide NewSlot, RulesOf, LeftBehind, LeastFree, Plus;
    var s := Init(maxVMs, hostInterface);
    AllocateFirstFit(s.net, NoFault, true);
    AllocateRefusesIffFull(s.net, true);
    var net := AllocateResult(s.net, NoFault, true).0;
    AllocateRefusesIffFull(net, true);
  }
}
