/** The node as a system of interleaved calls: orchestrator/orchestrator.go over
    runtime/firecracker/firecracker.go over network/pool.go.  Each mutex is held for one step
    only, so a Create, a Delete or a Pause is a sequence of steps and the state records how
    far every call in flight has got.  Nothing is assumed about the order of steps, and a
    Delete may start for any stored ID at any time, so cleanupExpired and Shutdown are
    particular schedules.  Sandbox IDs are arbitrary: they are not assumed to be fresh. */
module NodeSystem {
  import opened Aggregates
  import opened SlotAddress
  import opened HostNetwork
  import opened SlotPool

  /** Sandbox IDs are `sb-` and eight hexadecimal digits; only equality matters. */
  type Id = nat
  type Call = nat

  datatype Op =
    | Checked(id: Id)              // Create: past the count check, no slot yet
    | Booting(id: Id, slot: int)   // Create: holds a slot, VM starting or agent awaited
    | Failing(id: Id, slot: int)   // Create: VM gone, slot not given back yet
    | Mapped(id: Id)               // Create: in the runtime's map, not stored yet
    | Found(id: Id)                // Delete: the store had the ID
    | Unmapped(id: Id, slot: int)  // Delete: out of the runtime's map, slot not given back yet
    | Destroyed(id: Id)            // Delete: the runtime is done, the store entry remains
    | Pausing(id: Id)              // Pause or Resume: the store had the ID
    | Paused(id: Id)               // Pause or Resume: the runtime agreed, trailing Put to come

  /** A map entry, a call in flight, or nobody: the entry that held the slot was overwritten. */
  datatype Holder = Entry(id: Id) | Holding(c: Call) | Orphan

  /** What has happened so far; no step depends on it. */
  datatype History = History(
    peak: nat,                  // the largest Count() so far
    issued: multiset<int>,      // slots handed out by Allocate
    returned: multiset<int>,    // slots passed to Release
    owner: map<int, Holder>,    // who got hold of each allocated slot last
    leftovers: multiset<Rule>,  // rules of failed set-ups and of failed deletions
    tapsClean: bool,            // no device deletion has failed
    revived: set<Id>)           // entries put back after the runtime had dropped the ID

  datatype Node = Node(
    maxVMs: int,
    net: Network,
    vms: map<Id, int>,
    store: set<Id>,
    ops: map<Call, Op>,
    hist: History)

  datatype Event =
    | BeginCreate(c: Call, id: Id)
    | NoTemplate(c: Call)
    | Allocate(c: Call, fault: Fault, undoOk: bool)
    | BootFails(c: Call)
    | MapVm(c: Call)
    | GiveBack(c: Call, r: Removal)
    | Store(c: Call)
    | BeginDelete(c: Call, id: Id)
    | Unmap(c: Call)
    | Release(c: Call, r: Removal)
    | Forget(c: Call)
    | BeginPause(c: Call, id: Id)
    | PauseVm(c: Call)
    | PutBack(c: Call)

  /** The runtime replaces a non-positive limit before it sizes its pool. */
  function SlotLimit(maxVMs: int): nat {
    if maxVMs <= 0 then 50 else maxVMs
  }

  ghost function Init(maxVMs: int, hostInterface: string): Node {
    Node(maxVMs, Network(SlotLimit(maxVMs), InterfaceOrDefault(hostInterface), {}, {}, multiset{}),
         map[], {}, map[], History(0, multiset{}, multiset{}, map[], multiset{}, true, {}))
  }

  ghost predicate Enabled(s: Node, e: Event) {
    match e
    case BeginCreate(c, id) => c !in s.ops && |s.store| < s.maxVMs
    case BeginDelete(c, id) => c !in s.ops && id in s.store
    case BeginPause(c, id) => c !in s.ops && id in s.store
    case NoTemplate(c) => c in s.ops && s.ops[c].Checked?
    case Allocate(c, _, _) => c in s.ops && s.ops[c].Checked?
    case BootFails(c) => c in s.ops && s.ops[c].Booting?
    case MapVm(c) => c in s.ops && s.ops[c].Booting?
    case GiveBack(c, _) => c in s.ops && s.ops[c].Failing?
    case Store(c) => c in s.ops && s.ops[c].Mapped?
    case Unmap(c) => c in s.ops && s.ops[c].Found?
    case Release(c, _) => c in s.ops && s.ops[c].Unmapped?
    case Forget(c) => c in s.ops && s.ops[c].Destroyed?
    case PauseVm(c) => c in s.ops && s.ops[c].Pausing?
    case PutBack(c) => c in s.ops && s.ops[c].Paused?
  }

  function Max(a: nat, b: nat): nat { if a < b then b else a }

  ghost function AfterAllocate(s: Node, c: Call, fault: Fault, undoOk: bool): Node
    requires c in s.ops && s.ops[c].Checked?
  {
    var (q, slot) := AllocateResult(s.net, fault, undoOk);
    var h := s.hist.(
      leftovers := Plus(s.hist.leftovers, AllocateLeftovers(s.net, fault)),
      tapsClean := s.hist.tapsClean && (RollsBack(s.net, fault) ==> undoOk));
    match slot
    case Some(i) => s.(net := q, ops := s.ops[c := Booting(s.ops[c].id, i)],
      hist := h.(peak := Max(h.peak, |q.taken|), issued := h.issued + multiset{i},
              owner := h.owner[i := Holding(c)]))
    case None => s.(net := q, ops := s.ops - {c}, hist := h)
  }

  ghost function AfterRelease(s: Node, slot: int, r: Removal, ops: map<Call, Op>): Node {
    s.(net := ReleaseResult(s.net, slot, r), ops := ops,
       hist := s.hist.(
         returned := s.hist.returned + multiset{slot},
         owner := s.hist.owner - {slot},
         leftovers := Plus(s.hist.leftovers, Undeleted(NewSlot(slot), s.net.hostInterface, r)),
         tapsClean := s.hist.tapsClean && r.tap))
  }

  ghost function Apply(s: Node, e: Event): Node
    requires Enabled(s, e)
  {
    match e
    case BeginCreate(c, id) => s.(ops := s.ops[c := Checked(id)])
    case NoTemplate(c) => s.(ops := s.ops - {c})
    case Allocate(c, fault, undoOk) => AfterAllocate(s, c, fault, undoOk)
    case BootFails(c) => s.(ops := s.ops[c := Failing(s.ops[c].id, s.ops[c].slot)])
    case MapVm(c) =>
      var id := s.ops[c].id;
      var owner := if id in s.vms then s.hist.owner[s.vms[id] := Orphan] else s.hist.owner;
      s.(vms := s.vms[id := s.ops[c].slot], ops := s.ops[c := Mapped(id)],
         hist := s.hist.(owner := owner[s.ops[c].slot := Entry(id)]))
    case GiveBack(c, r) => AfterRelease(s, s.ops[c].slot, r, s.ops - {c})
    case Store(c) => s.(store := s.store + {s.ops[c].id}, ops := s.ops - {c})
    case BeginDelete(c, id) => s.(ops := s.ops[c := Found(id)])
    case Unmap(c) =>
      var id := s.ops[c].id;
      if id in s.vms then
        s.(vms := s.vms - {id}, ops := s.ops[c := Unmapped(id, s.vms[id])],
           hist := s.hist.(owner := s.hist.owner[s.vms[id] := Holding(c)]))
      else s.(ops := s.ops[c := Destroyed(id)])
    case Release(c, r) => AfterRelease(s, s.ops[c].slot, r, s.ops[c := Destroyed(s.ops[c].id)])
    case Forget(c) =>
      s.(store := s.store - {s.ops[c].id}, ops := s.ops - {c},
         hist := s.hist.(revived := s.hist.revived - {s.ops[c].id}))
    case BeginPause(c, id) => s.(ops := s.ops[c := Pausing(id)])
    case PauseVm(c) =>
      var id := s.ops[c].id;
      s.(ops := if id in s.vms then s.ops[c := Paused(id)] else s.ops - {c})
    case PutBack(c) =>
      var id := s.ops[c].id;
      s.(store := s.store + {id}, ops := s.ops - {c},
         hist := if id in s.vms then s.hist else s.hist.(revived := s.hist.revived + {id}))
  }

  ghost predicate IsRun(s: Node, es: seq<Event>)
    decreases |es|
  {
    es == [] || (Enabled(s, es[0]) && IsRun(Apply(s, es[0]), es[1..]))
  }

  ghost function Final(s: Node, es: seq<Event>): Node
    requires IsRun(s, es)
    decreases |es|
  {
    if es == [] then s else Final(Apply(s, es[0]), es[1..])
  }

  // ----- who holds which slot

  predicate Holds(op: Op) { op.Booting? || op.Failing? || op.Unmapped? }

  /** `owner` maps the allocated slots one to one to the entries and calls that hold one; what
      is left over are the slots of overwritten entries. */
  ghost predicate OwnedOnce(taken: set<int>, vms: map<Id, int>, ops: map<Call, Op>, owner: map<int, Holder>) {
    && owner.Keys == taken
    && (forall id :: id in vms ==> vms[id] in owner && owner[vms[id]] == Entry(id))
    && (forall c :: c in ops && Holds(ops[c]) ==> ops[c].slot in owner && owner[ops[c].slot] == Holding(c))
    && (forall x :: x in owner && owner[x].Entry? ==> owner[x].id in vms && vms[owner[x].id] == x)
    && (forall x :: x in owner && owner[x].Holding? ==>
          owner[x].c in ops && Holds(ops[owner[x].c]) && ops[owner[x].c].slot == x)
  }

  ghost predicate Owned(s: Node) {
    OwnedOnce(s.net.taken, s.vms, s.ops, s.hist.owner)
  }

  /** The pool's ledger: exactly what went out and has not come back is allocated. */
  ghost predicate Ledger(s: Node) {
    && 0 < s.net.maxSlots && InRange(s.net)
    && (forall x :: s.hist.issued[x] == s.hist.returned[x] + if x in s.net.taken then 1 else 0)
    && |s.net.taken| <= s.hist.peak <= s.net.maxSlots
    && (forall x :: x in s.hist.issued ==> 0 <= x < s.hist.peak)
  }

  /** The host's rules and devices. */
  ghost predicate HostTracked(s: Node) {
    && Accounts(s.net, s.hist.leftovers)
    && (s.hist.tapsClean ==> s.net.taps == TapNames(s.net.taken))
  }

  ghost predicate Safe(s: Node) {
    Owned(s) && Ledger(s) && HostTracked(s)
  }

  // ----- every step keeps the node safe

  lemma GrantKeepsOwned(taken: set<int>, vms: map<Id, int>, ops: map<Call, Op>, owner: map<int, Holder>,
                        c: Call, id: Id, slot: int)
    requires OwnedOnce(taken, vms, ops, owner)
    requires (c in ops ==> !Holds(ops[c])) && slot !in taken
    ensures OwnedOnce(taken + {slot}, vms, ops[c := Booting(id, slot)], owner[slot := Holding(c)])
  {
  }

  lemma ReturnKeepsOwned(taken: set<int>, vms: map<Id, int>, ops: map<Call, Op>, owner: map<int, Holder>,
                         c: Call, ops': map<Call, Op>)
    requires OwnedOnce(taken, vms, ops, owner)
    requires c in ops && Holds(ops[c])
    requires ops' - {c} == ops - {c} && (c in ops' ==> !Holds(ops'[c]))
    ensures ops[c].slot in taken
    ensures OwnedOnce(taken - {ops[c].slot}, vms, ops', owner - {ops[c].slot})
  {
    assert forall d :: d != c ==> (d in ops' <==> d in ops - {c}) && (d in ops' ==> ops'[d] == (ops - {c})[d]);
  }

  lemma AllocateKeepsOwned(s: Node, c: Call, fault: Fault, undoOk: bool)
    requires Owned(s) && 0 < s.net.maxSlots && c in s.ops && s.ops[c].Checked?
    ensures Owned(AfterAllocate(s, c, fault, undoOk))
  {
    hide OwnedOnce, RulesOf, NewSlot, LeftBehind, AllocateLeftovers, LeastFree;
    var (q, slot) := AllocateResult(s.net, fault, undoOk);
    if slot.Some? {
      GrantKeepsOwned(s.net.taken, s.vms, s.ops, s.hist.owner, c, s.ops[c].id, slot.value);
    } else {
      QuietKeepsOwned(s.net.taken, s.vms, s.ops, s.hist.owner, c, s.ops - {c});
    }
  }

  lemma AllocateKeepsLedger(s: Node, c: Call, fault: Fault, undoOk: bool)
    requires Ledger(s) && c in s.ops && s.ops[c].Checked?
    ensures Ledger(AfterAllocate(s, c, fault, undoOk))
  {
    hide RulesOf, NewSlot, LeftBehind, AllocateLeftovers;
    AllocateFirstFit(s.net, fault, undoOk);
  }

  lemma AllocateKeepsHost(s: Node, c: Call, fault: Fault, undoOk: bool)
    requires HostTracked(s) && 0 < s.net.maxSlots && c in s.ops && s.ops[c].Checked?
    ensures HostTracked(AfterAllocate(s, c, fault, undoOk))
  {
    hide RulesOf, NewSlot, LeftBehind, AllocateLeftovers, Accounts, AllocateResult, TapNames, RollsBack;
    AllocateAccounts(s.net, s.hist.leftovers, fault, undoOk);
    if s.hist.tapsClean && (RollsBack(s.net, fault) ==> undoOk) {
      AllocateKeepsTaps(s.net, fault, undoOk);
    }
  }

  lemma ReleaseKeepsSafe(s: Node, c: Call, r: Removal, ops: map<Call, Op>)
    requires Safe(s) && c in s.ops && Holds(s.ops[c])
    requires ops == s.ops - {c} || ops == s.ops[c := Destroyed(s.ops[c].id)]
    ensures Safe(AfterRelease(s, s.ops[c].slot, r, ops))
  {
    hide OwnedOnce, Ledger, HostTracked, NewSlot, Deleted, Undeleted;
    assert ops - {c} == s.ops - {c};
    ReturnKeepsOwned(s.net.taken, s.vms, s.ops, s.hist.owner, c, ops);
    ReleaseKeepsLedger(s, s.ops[c].slot, r, ops);
    ReleaseKeepsHost(s, s.ops[c].slot, r, ops);
  }

  lemma ReleaseKeepsLedger(s: Node, slot: int, r: Removal, ops: map<Call, Op>)
    requires Ledger(s) && slot in s.net.taken
    ensures Ledger(AfterRelease(s, slot, r, ops))
  {
    hide NewSlot, Deleted, Undeleted;
    SubsetSize(s.net.taken - {slot}, s.net.taken);
  }

  lemma ReleaseKeepsHost(s: Node, slot: int, r: Removal, ops: map<Call, Op>)
    requires HostTracked(s) && slot in s.net.taken
    ensures HostTracked(AfterRelease(s, slot, r, ops))
  {
    hide RulesOf, NewSlot, Deleted, Undeleted, Accounts, TapNames;
    ReleaseAccounts(s.net, s.hist.leftovers, slot, r);
    if s.hist.tapsClean && r.tap {
      ReleaseKeepsTaps(s.net, slot, r);
    }
  }

  lemma MapKeepsOwned(taken: set<int>, vms: map<Id, int>, ops: map<Call, Op>, owner: map<int, Holder>, c: Call)
    requires OwnedOnce(taken, vms, ops, owner) && c in ops && ops[c].Booting?
    ensures var (id, slot) := (ops[c].id, ops[c].slot);
      var freed := if id in vms then owner[vms[id] := Orphan] else owner;
      OwnedOnce(taken, vms[id := slot], ops[c := Mapped(id)], freed[slot := Entry(id)])
  {
  }

  lemma UnmapKeepsOwned(taken: set<int>, vms: map<Id, int>, ops: map<Call, Op>, owner: map<int, Holder>, c: Call)
    requires OwnedOnce(taken, vms, ops, owner) && c in ops && ops[c].Found? && ops[c].id in vms
    ensures var id := ops[c].id;
      OwnedOnce(taken, vms - {id}, ops[c := Unmapped(id, vms[id])], owner[vms[id] := Holding(c)])
  {
  }

  /** A call that neither gains nor loses a slot. */
  lemma QuietKeepsOwned(taken: set<int>, vms: map<Id, int>, ops: map<Call, Op>, owner: map<int, Holder>,
                        c: Call, ops': map<Call, Op>)
    requires OwnedOnce(taken, vms, ops, owner)
    requires ops' - {c} == ops - {c}
    requires (c in ops' && Holds(ops'[c])) <==> (c in ops && Holds(ops[c]))
    requires c in ops && c in ops' && Holds(ops[c]) ==> ops'[c].slot == ops[c].slot
    ensures OwnedOnce(taken, vms, ops', owner)
  {
    assert forall d :: d != c ==> (d in ops' <==> d in ops - {c}) && (d in ops' ==> ops'[d] == (ops - {c})[d]);
    assert forall d :: d != c ==> (d in ops <==> d in ops - {c}) && (d in ops ==> ops[d] == (ops - {c})[d]);
  }

  lemma StepKeepsSafe(s: Node, e: Event)
    requires Safe(s) && Enabled(s, e)
    ensures Safe(Apply(s, e))
  {
    match e
    case Allocate(c, fault, undoOk) =>
      AllocateKeepsOwned(s, c, fault, undoOk);
      AllocateKeepsLedger(s, c, fault, undoOk);
      AllocateKeepsHost(s, c, fault, undoOk);
    case GiveBack(c, r) =>
      ReleaseKeepsSafe(s, c, r, s.ops - {c});
    case Release(c, r) =>
      ReleaseKeepsSafe(s, c, r, s.ops[c := Destroyed(s.ops[c].id)]);
    case _ =>
      OtherStepKeepsSafe(s, e);
  }

  lemma OtherStepKeepsSafe(s: Node, e: Event)
    requires Safe(s) && Enabled(s, e) && !e.Allocate? && !e.GiveBack? && !e.Release?
    ensures Safe(Apply(s, e))
  {
    hide Owned, Accounts, TapNames, Apply;
    OtherStepKeepsOwned(s, e);
    OtherStepFrame(s, e);
  }

  lemma OtherStepKeepsOwned(s: Node, e: Event)
    requires Owned(s) && Enabled(s, e) && !e.Allocate? && !e.GiveBack? && !e.Release?
    ensures Owned(Apply(s, e))
  {
    hide OwnedOnce, Apply;
    OtherStepFrame(s, e);
    var t := Apply(s, e);
    if e.MapVm? {
      MapKeepsOwned(s.net.taken, s.vms, s.ops, s.hist.owner, e.c);
    } else if e.Unmap? && s.ops[e.c].id in s.vms {
      UnmapKeepsOwned(s.net.taken, s.vms, s.ops, s.hist.owner, e.c);
    } else {
      QuietKeepsOwned(s.net.taken, s.vms, s.ops, s.hist.owner, e.c, t.ops);
    }
  }

  /** What the steps that do not touch the pool leave alone. */
  lemma OtherStepFrame(s: Node, e: Event)
    requires Enabled(s, e) && !e.Allocate? && !e.GiveBack? && !e.Release?
    ensures var t := Apply(s, e);
      && t.net == s.net && t.ops - {e.c} == s.ops - {e.c}
      && t.hist.(owner := s.hist.owner, revived := s.hist.revived) == s.hist
      && (if e.MapVm? then
            var (id, slot) := (s.ops[e.c].id, s.ops[e.c].slot);
            var freed := if id in s.vms then s.hist.owner[s.vms[id] := Orphan] else s.hist.owner;
            t.vms == s.vms[id := slot] && t.ops == s.ops[e.c := Mapped(id)] && t.hist.owner == freed[slot := Entry(id)]
          else if e.Unmap? && s.ops[e.c].id in s.vms then
            var id := s.ops[e.c].id;
            t.vms == s.vms - {id} && t.ops == s.ops[e.c := Unmapped(id, s.vms[id])]
            && t.hist.owner == s.hist.owner[s.vms[id] := Holding(e.c)]
          else
            && t.vms == s.vms && t.hist.owner == s.hist.owner
            && ((e.c in t.ops && Holds(t.ops[e.c])) <==> (e.c in s.ops && Holds(s.ops[e.c])))
            && (e.c in t.ops && e.c in s.ops && Holds(s.ops[e.c]) ==> t.ops[e.c].slot == s.ops[e.c].slot))
  {
    hide AfterAllocate, AfterRelease;
  }

  lemma {:induction false} RunKeepsSafe(s: Node, es: seq<Event>)
    requires Safe(s) && IsRun(s, es)
    ensures Safe(Final(s, es))
    decreases |es|
  {
    if es != [] {
      StepKeepsSafe(s, es[0]);
      RunKeepsSafe(Apply(s, es[0]), es[1..]);
    }
  }

  lemma InitIsSafe(maxVMs: int, hostInterface: string)
    ensures Safe(Init(maxVMs, hostInterface))
  {
    assert Shares(InterfaceOrDefault(hostInterface), {}) == map[];
  }
}
