/** What every run of the node system guarantees: who holds which slot, how many sandboxes
    there can be, and when the store and the runtime agree. */
module NodeAgreement {
  import opened Wrappers
  import opened Aggregates
  import opened SlotAddress
  import opened HostNetwork
  import opened SlotPool
  import opened NodeSystem

  ghost predicate Reachable(maxVMs: int, hostInterface: string, es: seq<Event>) {
    IsRun(Init(maxVMs, hostInterface), es)
  }

  ghost function After(maxVMs: int, hostInterface: string, es: seq<Event>): (s: Node)
    requires Reachable(maxVMs, hostInterface, es)
  {
    Final(Init(maxVMs, hostInterface), es)
  }

  lemma EveryRunIsSafe(maxVMs: int, hostInterface: string, es: seq<Event>)
    requires Reachable(maxVMs, hostInterface, es)
    ensures Safe(After(maxVMs, hostInterface, es))
    ensures After(maxVMs, hostInterface, es).net.maxSlots == SlotLimit(maxVMs)
    ensures After(maxVMs, hostInterface, es).net.hostInterface == if hostInterface == "" then "eth0" else hostInterface
  {
    hide Safe, Apply, Enabled;
    InitIsSafe(maxVMs, hostInterface);
    RunKeepsSafe(Init(maxVMs, hostInterface), es);
    RunKeepsLimits(Init(maxVMs, hostInterface), es);
  }

  lemma StepKeepsLimits(s: Node, e: Event)
    requires Enabled(s, e)
    ensures Apply(s, e).maxVMs == s.maxVMs && Apply(s, e).net.maxSlots == s.net.maxSlots
    ensures Apply(s, e).net.hostInterface == s.net.hostInterface
  {
    hide NewSlot, RulesOf, LeftBehind, Deleted, Plus, Minus, LeastFree;
  }

  lemma {:induction false} RunKeepsLimits(s: Node, es: seq<Event>)
    requires IsRun(s, es)
    ensures Final(s, es).maxVMs == s.maxVMs && Final(s, es).net.maxSlots == s.net.maxSlots
    ensures Final(s, es).net.hostInterface == s.net.hostInterface
    decreases |es|
  {
    hide Apply, Enabled;
    if es != [] {
      StepKeepsLimits(s, es[0]);
      RunKeepsLimits(Apply(s, es[0]), es[1..]);
    }
  }

  // ----- slots

  ghost function HoldingCalls(s: Node): set<Call> {
    set c | c in s.ops && Holds(s.ops[c])
  }

  /** The slots whose map entry was overwritten: allocated, but out of everybody's reach. */
  ghost function Orphans(s: Node): set<int> {
    set x | x in s.hist.owner && s.hist.owner[x] == Orphan
  }

  /** At any time the allocated set is the disjoint union of the slots held by map entries, by
      calls in flight and by overwritten entries.  IDs need not be fresh. */
  lemma SlotsPartitioned(maxVMs: int, hostInterface: string, es: seq<Event>)
    requires Reachable(maxVMs, hostInterface, es)
    ensures var s := After(maxVMs, hostInterface, es);
      && (forall i, j :: i in s.vms && j in s.vms && i != j ==> s.vms[i] != s.vms[j])
      && (forall c, d :: c in HoldingCalls(s) && d in HoldingCalls(s) && c != d ==> s.ops[c].slot != s.ops[d].slot)
      && (forall i, c :: i in s.vms && c in HoldingCalls(s) ==> s.vms[i] != s.ops[c].slot)
      && (forall i :: i in s.vms ==> s.vms[i] in s.net.taken - Orphans(s))
      && (forall c :: c in HoldingCalls(s) ==> s.ops[c].slot in s.net.taken - Orphans(s))
      && Orphans(s) <= s.net.taken
      && (forall x :: x in s.net.taken - Orphans(s) ==>
            (exists i :: i in s.vms && s.vms[i] == x) || (exists c :: c in HoldingCalls(s) && s.ops[c].slot == x))
  {
    EveryRunIsSafe(maxVMs, hostInterface, es);
    hide After, Ledger, HostTracked;
    var s := After(maxVMs, hostInterface, es);
    forall x | x in s.net.taken - Orphans(s)
      ensures (exists i :: i in s.vms && s.vms[i] == x) || (exists c :: c in HoldingCalls(s) && s.ops[c].slot == x)
    {
      match s.hist.owner[x]
      case Entry(i) => assert i in s.vms && s.vms[i] == x;
      case Holding(c) => assert c in HoldingCalls(s);
      case Orphan =>
    }
  }

  /** A slot that a call gives back is allocated and nobody else's, so Release, which checks no
      owner, never frees another sandbox's slot. */
  lemma ReleaseIsOwned(maxVMs: int, hostInterface: string, es: seq<Event>, e: Event)
    requires Reachable(maxVMs, hostInterface, es) && (e.GiveBack? || e.Release?)
    requires Enabled(After(maxVMs, hostInterface, es), e)
    ensures var s := After(maxVMs, hostInterface, es);
      var slot := s.ops[e.c].slot;
      && slot in s.net.taken
      && (forall i :: i in s.vms ==> s.vms[i] != slot)
      && (forall c :: c in HoldingCalls(s) && c != e.c ==> s.ops[c].slot != slot)
      && Apply(s, e).net.taken == s.net.taken - {slot}
  {
    EveryRunIsSafe(maxVMs, hostInterface, es);
    hide After, Ledger, HostTracked, NewSlot, Deleted, Undeleted, Minus, Plus;
  }

  /** Each slot has gone out as often as it has come back, plus once if it is allocated now;
      and every ID that was ever handed out lies below the largest count of allocated slots. */
  lemma LedgerBalances(maxVMs: int, hostInterface: string, es: seq<Event>, x: int)
    requires Reachable(maxVMs, hostInterface, es)
    ensures var s := After(maxVMs, hostInterface, es);
      && s.hist.issued[x] == s.hist.returned[x] + (if x in s.net.taken then 1 else 0)
      && (x in s.hist.issued ==> 0 <= x < s.hist.peak)
      && s.hist.peak <= SlotLimit(maxVMs)
  {
    EveryRunIsSafe(maxVMs, hostInterface, es);
    hide After, Owned, HostTracked;
  }

  /** How many steps of a run hand out slot `x`, and how many give it back. */
  ghost function TimesGranted(s: Node, es: seq<Event>, x: int): nat
    requires IsRun(s, es)
    decreases |es|
  {
    if es == [] then 0
    else (if Grants(s, es[0], x) then 1 else 0) + TimesGranted(Apply(s, es[0]), es[1..], x)
  }

  ghost predicate Grants(s: Node, e: Event, x: int)
    requires Enabled(s, e)
  {
    e.Allocate? && e.c in Apply(s, e).ops && Apply(s, e).ops[e.c] == Booting(s.ops[e.c].id, x)
  }

  ghost function TimesReturned(s: Node, es: seq<Event>, x: int): nat
    requires IsRun(s, es)
    decreases |es|
  {
    if es == [] then 0
    else (if Returns(s, es[0], x) then 1 else 0) + TimesReturned(Apply(s, es[0]), es[1..], x)
  }

  ghost predicate Returns(s: Node, e: Event, x: int)
    requires Enabled(s, e)
  {
    (e.GiveBack? || e.Release?) && s.ops[e.c].slot == x
  }

  /** The largest number of allocated slots at any time of a run. */
  ghost function LargestCount(s: Node, es: seq<Event>): nat
    requires IsRun(s, es)
    decreases |es|
  {
    if es == [] then |s.net.taken|
    else if |s.net.taken| > LargestCount(Apply(s, es[0]), es[1..]) then |s.net.taken|
    else LargestCount(Apply(s, es[0]), es[1..])
  }

  lemma GrantStep(s: Node, c: Call, fault: Fault, undoOk: bool, x: int)
    requires c in s.ops && s.ops[c].Checked? && Ledger(s)
    ensures var (t, granted) := (AfterAllocate(s, c, fault, undoOk), AllocateResult(s.net, fault, undoOk).1 == Some(x));
      && (c in t.ops && t.ops[c] == Booting(s.ops[c].id, x) <==> granted)
      && t.hist.issued[x] == s.hist.issued[x] + (if granted then 1 else 0)
      && t.hist.returned == s.hist.returned
      && t.hist.peak == if |t.net.taken| > s.hist.peak then |t.net.taken| else s.hist.peak
  {
    hide AllocateResult, AllocateLeftovers, RollsBack, Plus;
    AllocateFirstFit(s.net, fault, undoOk);
    RefusalKeepsTaken(s.net, fault, undoOk);
  }

  lemma RefusalKeepsTaken(n: Network, fault: Fault, undoOk: bool)
    ensures AllocateResult(n, fault, undoOk).1 == None ==> AllocateResult(n, fault, undoOk).0.taken == n.taken
  {
    hide NewSlot, RulesOf, LeftBehind, LeastFree, Plus;
  }

  lemma ReturnStep(s: Node, slot: int, r: Removal, ops: map<Call, Op>, x: int)
    requires Ledger(s)
    ensures var h := AfterRelease(s, slot, r, ops).hist;
      && h.issued == s.hist.issued
      && h.returned[x] == s.hist.returned[x] + (if slot == x then 1 else 0)
      && h.peak == s.hist.peak && |AfterRelease(s, slot, r, ops).net.taken| <= h.peak
  {
    hide NewSlot, Deleted, Undeleted, Minus, Plus;
    SubsetSize(s.net.taken - {slot}, s.net.taken);
  }

  lemma LedgerStep(s: Node, e: Event, x: int)
    requires Enabled(s, e) && Ledger(s)
    ensures var h := Apply(s, e).hist;
      && h.issued[x] == s.hist.issued[x] + (if Grants(s, e, x) then 1 else 0)
      && h.returned[x] == s.hist.returned[x] + (if Returns(s, e, x) then 1 else 0)
      && h.peak == if |Apply(s, e).net.taken| > s.hist.peak then |Apply(s, e).net.taken| else s.hist.peak
  {
    hide AfterAllocate, AfterRelease;
    match e {
      case Allocate(c, fault, undoOk) => GrantStep(s, c, fault, undoOk, x);
      case GiveBack(c, r) => ReturnStep(s, s.ops[c].slot, r, s.ops - {c}, x);
      case Release(c, r) => ReturnStep(s, s.ops[c].slot, r, s.ops[c := Destroyed(s.ops[c].id)], x);
      case _ => OtherStepFrame(s, e);
    }
  }

  lemma {:induction false} LedgerInRun(s: Node, es: seq<Event>, x: int)
    requires Safe(s) && IsRun(s, es)
    ensures var h := Final(s, es).hist;
      && h.issued[x] == s.hist.issued[x] + TimesGranted(s, es, x)
      && h.returned[x] == s.hist.returned[x] + TimesReturned(s, es, x)
      && h.peak == if LargestCount(s, es) > s.hist.peak then LargestCount(s, es) else s.hist.peak
    decreases |es|
  {
    hide Owned, HostTracked, Enabled, Apply, Grants, Returns;
    if es != [] {
      LedgerStep(s, es[0], x);
      StepKeepsSafe(s, es[0]);
      LedgerInRun(Apply(s, es[0]), es[1..], x);
    }
  }

  /** By the events of the run: each slot was granted as often as it was given back, plus once if it is allocated
      now, and every slot ever granted lies below the largest count of allocated slots. */
  lemma GrantsBalance(maxVMs: int, hostInterface: string, es: seq<Event>, x: int)
    requires Reachable(maxVMs, hostInterface, es)
    ensures var s, t := Init(maxVMs, hostInterface), After(maxVMs, hostInterface, es);
      && TimesGranted(s, es, x) == TimesReturned(s, es, x) + (if x in t.net.taken then 1 else 0)
      && (TimesGranted(s, es, x) > 0 ==> 0 <= x < LargestCount(s, es))
      && LargestCount(s, es) <= SlotLimit(maxVMs)
  {
    hide Safe, Enabled, Apply, TimesGranted, TimesReturned, LargestCount;
    InitIsSafe(maxVMs, hostInterface);
    LedgerInRun(Init(maxVMs, hostInterface), es, x);
    LedgerBalances(maxVMs, hostInterface, es, x);
  }

  /** Addresses of allocated slots clash only after more than 16384 slots were live at once. */
  lemma NoAddressClash(maxVMs: int, hostInterface: string, es: seq<Event>, x: int, y: int)
    requires Reachable(maxVMs, hostInterface, es)
    requires var s := After(maxVMs, hostInterface, es); x in s.hist.issued && y in s.hist.issued && x != y
    requires After(maxVMs, hostInterface, es).hist.peak <= 16384
    ensures NewSlot(x).hostIp != NewSlot(y).hostIp && NewSlot(x).guestIp != NewSlot(y).guestIp
    ensures NewSlot(x).guestMac != NewSlot(y).guestMac && NewSlot(x).tapName != NewSlot(y).tapName
  {
    hide After, NewSlot;
    LedgerBalances(maxVMs, hostInterface, es, x);
    LedgerBalances(maxVMs, hostInterface, es, y);
    AddressesInjective(x, y);
    NamesInjective(x, y);
  }

  // ----- how many

  lemma {:induction false} EntriesSize(ids: set<Id>)
    ensures |set i | i in ids :: Entry(i)| == |ids|
    decreases |ids|
  {
    if i :| i in ids {
      EntriesSize(ids - {i});
      assert (set j | j in ids :: Entry(j)) == (set j | j in ids - {i} :: Entry(j)) + {Entry(i)};
    }
  }

  lemma {:induction false} HoldingsSize(calls: set<Call>)
    ensures |set c | c in calls :: Holding(c)| == |calls|
    decreases |calls|
  {
    if c :| c in calls {
      HoldingsSize(calls - {c});
      assert (set d | d in calls :: Holding(d)) == (set d | d in calls - {c} :: Holding(d)) + {Holding(c)};
    }
  }

  ghost function Holders(s: Node): set<Holder> {
    (set i | i in s.vms.Keys :: Entry(i)) + (set c | c in HoldingCalls(s) :: Holding(c))
  }

  lemma HoldersReached(s: Node, h: Holder)
    requires Owned(s) && h in Holders(s)
    ensures exists x :: x in s.hist.owner && s.hist.owner[x] == h
  {
    var x := if h.Entry? then s.vms[h.id] else s.ops[h.c].slot;
    assert x in s.hist.owner && s.hist.owner[x] == h;
  }

  lemma HoldersSize(s: Node)
    ensures |Holders(s)| == |s.vms| + |HoldingCalls(s)|
  {
    EntriesSize(s.vms.Keys);
    HoldingsSize(HoldingCalls(s));
    var entries, calls := set i | i in s.vms.Keys :: Entry(i), set c | c in HoldingCalls(s) :: Holding(c);
    assert entries * calls == {} && |entries + calls| == |entries| + |calls|;
    assert |s.vms| == |s.vms.Keys|;
  }

  lemma HoldersFit(s: Node)
    requires Safe(s)
    ensures |s.vms| + |HoldingCalls(s)| <= |s.net.taken| <= s.net.maxSlots
  {
    hide HostTracked, Holders, HoldingCalls;
    HoldersSize(s);
    forall h | h in Holders(s)
      ensures exists x :: x in s.hist.owner && s.hist.owner[x] == h
    {
      HoldersReached(s, h);
    }
    KeysReaching(s.hist.owner, Holders(s));
    assert |s.hist.owner| == |s.hist.owner.Keys| == |s.net.taken|;
    CountWithinRange(s.net);
  }

  /** Running sandboxes and calls that hold a slot never exceed the limit together. */
  lemma SandboxesBounded(maxVMs: int, hostInterface: string, es: seq<Event>)
    requires Reachable(maxVMs, hostInterface, es)
    ensures var s := After(maxVMs, hostInterface, es);
      |s.vms| + |HoldingCalls(s)| <= |s.net.taken| <= SlotLimit(maxVMs)
  {
    EveryRunIsSafe(maxVMs, hostInterface, es);
    hide After, Safe;
    HoldersFit(After(maxVMs, hostInterface, es));
  }

  // ----- store and runtime

  predicate Creates(op: Op) { op.Checked? || op.Booting? || op.Failing? || op.Mapped? }

  predicate Removes(op: Op) { op.Unmapped? || op.Destroyed? }

  ghost predicate Publishing(ops: map<Call, Op>, id: Id) {
    exists c :: c in ops && ops[c] == Mapped(id)
  }

  ghost predicate Removing(ops: map<Call, Op>, id: Id) {
    exists c :: c in ops && Removes(ops[c]) && ops[c].id == id
  }

  ghost predicate Unused(s: Node, id: Id) {
    id !in s.vms && id !in s.store && forall c :: c in s.ops ==> s.ops[c].id != id
  }

  /** Every generated ID is unused at the time: not stored, not running, not in flight. */
  ghost predicate FreshIds(s: Node, es: seq<Event>)
    requires IsRun(s, es)
    decreases |es|
  {
    es == [] ||
    ((es[0].BeginCreate? ==> Unused(s, es[0].id)) && FreshIds(Apply(s, es[0]), es[1..]))
  }

  /** A create in flight has its ID to itself; everything the runtime runs is stored or about
      to be; everything stored runs, is about to be forgotten, or was put back too late. */
  ghost predicate Agree(vms: set<Id>, store: set<Id>, ops: map<Call, Op>, revived: set<Id>) {
    && (forall c, d :: c in ops && d in ops && c != d && Creates(ops[c]) ==> ops[d].id != ops[c].id)
    && (forall c :: c in ops && Creates(ops[c]) ==> ops[c].id !in store)
    && (forall c :: c in ops && Creates(ops[c]) ==> (ops[c].id in vms <==> ops[c].Mapped?))
    && (forall c :: c in ops && Removes(ops[c]) ==> ops[c].id !in vms)
    && (forall i :: i in vms ==> i in store || Publishing(ops, i))
    && (forall i :: i in store ==> i in vms || Removing(ops, i) || i in revived)
    && (forall i :: i in revived ==> i in store && i !in vms)
  }

  ghost predicate Agreeing(s: Node) {
    Agree(s.vms.Keys, s.store, s.ops, s.hist.revived) && Orphans(s) == {}
  }

  lemma MapKeepsAgree(vms: set<Id>, store: set<Id>, ops: map<Call, Op>, revived: set<Id>, c: Call)
    requires Agree(vms, store, ops, revived) && c in ops && ops[c].Booting?
    ensures ops[c].id !in vms
    ensures Agree(vms + {ops[c].id}, store, ops[c := Mapped(ops[c].id)], revived)
  {
    var ops' := ops[c := Mapped(ops[c].id)];
    OthersStay(ops, ops', c);
    assert ops'[c] == Mapped(ops[c].id);
  }

  lemma StoreKeepsAgree(vms: set<Id>, store: set<Id>, ops: map<Call, Op>, revived: set<Id>, c: Call)
    requires Agree(vms, store, ops, revived) && c in ops && ops[c].Mapped?
    ensures Agree(vms, store + {ops[c].id}, ops - {c}, revived)
  {
    OthersStay(ops, ops - {c}, c);
  }

  lemma UnmapKeepsAgree(vms: set<Id>, store: set<Id>, ops: map<Call, Op>, revived: set<Id>, c: Call, op: Op)
    requires Agree(vms, store, ops, revived) && c in ops && ops[c].Found? && Removes(op) && op.id == ops[c].id
    ensures Agree(vms - {op.id}, store, ops[c := op], revived)
  {
    OthersStay(ops, ops[c := op], c);
    assert ops[c := op][c] == op;
  }

  lemma ForgetKeepsAgree(vms: set<Id>, store: set<Id>, ops: map<Call, Op>, revived: set<Id>, c: Call)
    requires Agree(vms, store, ops, revived) && c in ops && ops[c].Destroyed?
    ensures Agree(vms, store - {ops[c].id}, ops - {c}, revived - {ops[c].id})
  {
    OthersStay(ops, ops - {c}, c);
  }

  lemma PutBackKeepsAgree(vms: set<Id>, store: set<Id>, ops: map<Call, Op>, revived: set<Id>, c: Call)
    requires Agree(vms, store, ops, revived) && c in ops && ops[c].Paused?
    ensures var id := ops[c].id;
      Agree(vms, store + {id}, ops - {c}, if id in vms then revived else revived + {id})
  {
    OthersStay(ops, ops - {c}, c);
  }

  /** A change of one call that neither reaches nor leaves the map or the store. */
  ghost predicate QuietChange(vms: set<Id>, store: set<Id>, ops: map<Call, Op>, c: Call, ops': map<Call, Op>) {
    && ops' - {c} == ops - {c}
    && (c in ops && ops[c].Mapped? ==> c in ops' && ops'[c] == ops[c])
    && (c in ops && Removes(ops[c]) ==> c in ops' && Removes(ops'[c]) && ops'[c].id == ops[c].id)
    && (c in ops' ==> (Removes(ops'[c]) ==> c in ops && Removes(ops[c])))
    && (c in ops' && Creates(ops'[c]) ==> !ops'[c].Mapped?)
    && (c in ops' && Creates(ops'[c]) && !(c in ops && Creates(ops[c]) && ops[c].id == ops'[c].id) ==>
          ops'[c].id !in vms && ops'[c].id !in store && forall d :: d in ops ==> ops[d].id != ops'[c].id)
    && (c in ops' && !Creates(ops'[c]) && !(c in ops && ops[c].id == ops'[c].id) ==> ops'[c].id in store)
  }

  lemma QuietKeepsAgree(vms: set<Id>, store: set<Id>, ops: map<Call, Op>, revived: set<Id>,
                        c: Call, ops': map<Call, Op>)
    requires Agree(vms, store, ops, revived) && QuietChange(vms, store, ops, c, ops')
    ensures Agree(vms, store, ops', revived)
  {
    OthersStay(ops, ops', c);
    forall i | i in store && i !in vms && i !in revived
      ensures Removing(ops', i)
    {
      var d :| d in ops && Removes(ops[d]) && ops[d].id == i;
      assert d in ops' && Removes(ops'[d]) && ops'[d].id == i;
    }
  }

  lemma OthersStay(ops: map<Call, Op>, ops': map<Call, Op>, c: Call)
    requires ops' - {c} == ops - {c}
    ensures forall d :: d != c ==> (d in ops <==> d in ops') && (d in ops ==> ops'[d] == ops[d])
    ensures forall i :: Publishing(ops, i) && !(c in ops && ops[c] == Mapped(i)) ==> Publishing(ops', i)
    ensures forall i :: Removing(ops, i) && !(c in ops && ops[c].id == i) ==> Removing(ops', i)
  {
    forall d | d != c
      ensures (d in ops <==> d in ops') && (d in ops ==> ops'[d] == ops[d])
    {
      assert (d in ops <==> d in ops - {c}) && (d in ops' <==> d in ops' - {c});
      if d in ops { assert ops[d] == (ops - {c})[d] == (ops' - {c})[d] == ops'[d]; }
    }
    forall i | Publishing(ops, i) && !(c in ops && ops[c] == Mapped(i))
      ensures Publishing(ops', i)
    {
      var d :| d in ops && ops[d] == Mapped(i);
      assert ops'[d] == Mapped(i);
    }
    forall i | Removing(ops, i) && !(c in ops && ops[c].id == i)
      ensures Removing(ops', i)
    {
      var d :| d in ops && Removes(ops[d]) && ops[d].id == i;
      assert Removes(ops'[d]);
    }
  }

  predicate TouchesMapOrStore(e: Event) {
    e.MapVm? || e.Store? || e.Unmap? || e.Forget? || e.PutBack?
  }

  lemma OtherStepIsQuiet(s: Node, e: Event)
    requires Enabled(s, e) && !TouchesMapOrStore(e) && (e.BeginCreate? ==> Unused(s, e.id))
    ensures var t := Apply(s, e);
      && t.vms == s.vms && t.store == s.store && t.hist.revived == s.hist.revived
      && QuietChange(s.vms.Keys, s.store, s.ops, e.c, t.ops)
  {
    hide AfterAllocate, NewSlot, Undeleted, ReleaseResult, Plus;
    if e.Allocate? {
      AllocateTouches(s, e.c, e.fault, e.undoOk);
    }
    assert Apply(s, e).ops - {e.c} == s.ops - {e.c};
  }

  lemma AllocateTouches(s: Node, c: Call, fault: Fault, undoOk: bool)
    requires c in s.ops && s.ops[c].Checked?
    ensures var t := AfterAllocate(s, c, fault, undoOk);
      && t.vms == s.vms && t.store == s.store && t.hist.revived == s.hist.revived
      && t.ops - {c} == s.ops - {c}
      && (c in t.ops ==> t.ops[c].Booting? && t.ops[c].id == s.ops[c].id)
  {
    hide AllocateResult, AllocateLeftovers, Plus;
  }

  /** A slot is orphaned exactly when a sandbox is entered under an ID that is already in the
      runtime's map; no step ever brings an orphan back. */
  lemma OrphanedByReuseOnly(s: Node, e: Event)
    requires Safe(s) && Enabled(s, e)
    ensures Orphans(Apply(s, e))
      == Orphans(s) + if e.MapVm? && s.ops[e.c].id in s.vms then {s.vms[s.ops[e.c].id]} else {}
  {
    hide HostTracked, NewSlot, RulesOf, LeftBehind, Deleted, Plus, Minus, AllocateLeftovers;
  }

  /** Some step of the run enters a sandbox under an ID whose older sandbox holds slot `x`. */
  ghost predicate Overwrites(s: Node, es: seq<Event>, x: int)
    requires IsRun(s, es)
    decreases |es|
  {
    es != [] && (OverwritesAt(s, es[0], x) || Overwrites(Apply(s, es[0]), es[1..], x))
  }

  ghost predicate OverwritesAt(s: Node, e: Event, x: int)
    requires Enabled(s, e)
  {
    e.MapVm? && s.ops[e.c].id in s.vms && s.vms[s.ops[e.c].id] == x
  }

  lemma {:induction false} OrphansInRun(s: Node, es: seq<Event>, x: int)
    requires Safe(s) && IsRun(s, es)
    ensures x in Orphans(Final(s, es)) <==> x in Orphans(s) || Overwrites(s, es, x)
    decreases |es|
  {
    hide Safe, Enabled, Apply, Orphans;
    if es != [] {
      StepKeepsSafe(s, es[0]);
      OrphanedByReuseOnly(s, es[0]);
      OrphansInRun(Apply(s, es[0]), es[1..], x);
    }
  }

  /** Over every run a slot is lost if and only if a sandbox was entered over the one that held it. */
  lemma LostByReuseOnly(maxVMs: int, hostInterface: string, es: seq<Event>, x: int)
    requires Reachable(maxVMs, hostInterface, es)
    ensures x in Orphans(After(maxVMs, hostInterface, es)) <==> Overwrites(Init(maxVMs, hostInterface), es, x)
  {
    hide Safe, Enabled, Apply, Overwrites;
    InitIsSafe(maxVMs, hostInterface);
    OrphansInRun(Init(maxVMs, hostInterface), es, x);
  }

  lemma StepKeepsAgreeing(s: Node, e: Event)
    requires Safe(s) && Agreeing(s) && Enabled(s, e) && (e.BeginCreate? ==> Unused(s, e.id))
    ensures Agreeing(Apply(s, e))
  {
    hide Agree, QuietChange, Safe, Orphans, AfterAllocate, AfterRelease;
    OrphanedByReuseOnly(s, e);
    var t := Apply(s, e);
    var vms, revived := s.vms.Keys, s.hist.revived;
    match e
    case MapVm(c) =>
      MapKeepsAgree(vms, s.store, s.ops, revived, c);
      assert t.vms.Keys == vms + {s.ops[c].id};
    case Store(c) => StoreKeepsAgree(vms, s.store, s.ops, revived, c);
    case Unmap(c) =>
      UnmapKeepsAgree(vms, s.store, s.ops, revived, c, t.ops[c]);
      assert t.vms.Keys == vms - {s.ops[c].id} && t.ops == s.ops[c := t.ops[c]];
    case Forget(c) => ForgetKeepsAgree(vms, s.store, s.ops, revived, c);
    case PutBack(c) => PutBackKeepsAgree(vms, s.store, s.ops, revived, c);
    case _ =>
      OtherStepIsQuiet(s, e);
      QuietKeepsAgree(vms, s.store, s.ops, revived, e.c, t.ops);
  }

  lemma {:induction false} RunKeepsAgreeing(s: Node, es: seq<Event>)
    requires Safe(s) && Agreeing(s) && IsRun(s, es) && FreshIds(s, es)
    ensures Agreeing(Final(s, es))
    decreases |es|
  {
    hide Safe, Agreeing, Apply, Enabled, Unused;
    if es != [] {
      StepKeepsSafe(s, es[0]);
      StepKeepsAgreeing(s, es[0]);
      RunKeepsAgreeing(Apply(s, es[0]), es[1..]);
    }
  }

  ghost predicate Fresh(maxVMs: int, hostInterface: string, es: seq<Event>) {
    Reachable(maxVMs, hostInterface, es) && FreshIds(Init(maxVMs, hostInterface), es)
  }

  lemma FreshIsReachable(maxVMs: int, hostInterface: string, es: seq<Event>)
    requires Fresh(maxVMs, hostInterface, es)
    ensures Reachable(maxVMs, hostInterface, es)
  {
  }

  lemma FreshRunAgrees(maxVMs: int, hostInterface: string, es: seq<Event>)
    requires Fresh(maxVMs, hostInterface, es)
    ensures Agreeing(After(maxVMs, hostInterface, es))
  {
    InitIsSafe(maxVMs, hostInterface);
    hide Safe, Apply, Enabled;
    RunKeepsAgreeing(Init(maxVMs, hostInterface), es);
  }

  // ----- entries put back late

  /** A trailing Put of Pause or Resume that finds the runtime without the sandbox. */
  ghost predicate PutsBackLate(s: Node, e: Event, id: Id)
    requires Enabled(s, e)
  {
    e.PutBack? && s.ops[e.c].id == id && id !in s.vms
  }

  ghost predicate Forgets(s: Node, e: Event, id: Id)
    requires Enabled(s, e)
  {
    e.Forget? && s.ops[e.c].id == id
  }

  /** Some Delete in the run removes the ID from the store. */
  ghost predicate Forgotten(s: Node, es: seq<Event>, id: Id)
    requires IsRun(s, es)
    decreases |es|
  {
    es != [] && (Forgets(s, es[0], id) || Forgotten(Apply(s, es[0]), es[1..], id))
  }

  /** Some Put in the run is late, and no Delete removes the ID from the store after it. */
  ghost predicate Lingers(s: Node, es: seq<Event>, id: Id)
    requires IsRun(s, es)
    decreases |es|
  {
    es != [] &&
    ((PutsBackLate(s, es[0], id) && !Forgotten(Apply(s, es[0]), es[1..], id)) || Lingers(Apply(s, es[0]), es[1..], id))
  }

  lemma RevivedStep(s: Node, e: Event, id: Id)
    requires Enabled(s, e)
    ensures id in Apply(s, e).hist.revived <==> PutsBackLate(s, e, id) || (id in s.hist.revived && !Forgets(s, e, id))
  {
    hide AfterAllocate, AfterRelease;
    if e.Allocate? {
      AllocateTouches(s, e.c, e.fault, e.undoOk);
    } else if e.GiveBack? || e.Release? {
      ReleaseKeepsRevived(s, e);
    }
  }

  lemma ReleaseKeepsRevived(s: Node, e: Event)
    requires Enabled(s, e) && (e.GiveBack? || e.Release?)
    ensures Apply(s, e).hist.revived == s.hist.revived
  {
    hide ReleaseResult, Undeleted, Plus, NewSlot;
  }

  lemma {:induction false} RevivedInRun(s: Node, es: seq<Event>, id: Id)
    requires IsRun(s, es)
    ensures id in Final(s, es).hist.revived <==> Lingers(s, es, id) || (id in s.hist.revived && !Forgotten(s, es, id))
    decreases |es|
  {
    hide Enabled, Apply, PutsBackLate, Forgets;
    if es != [] {
      RevivedStep(s, es[0], id);
      RevivedInRun(Apply(s, es[0]), es[1..], id);
    }
  }

  /** The entries a run has put back late and not removed again. */
  ghost function LateEntries(maxVMs: int, hostInterface: string, es: seq<Event>): set<Id>
    requires Reachable(maxVMs, hostInterface, es)
  {
    set id | id in After(maxVMs, hostInterface, es).store && Lingers(Init(maxVMs, hostInterface), es, id)
  }

  /** Every late Put of the run was followed by a Delete of its ID. */
  ghost predicate NoneLingers(maxVMs: int, hostInterface: string, es: seq<Event>)
    requires Reachable(maxVMs, hostInterface, es)
  {
    forall id: Id :: !Lingers(Init(maxVMs, hostInterface), es, id)
  }

  lemma RevivedAreLate(maxVMs: int, hostInterface: string, es: seq<Event>)
    requires Fresh(maxVMs, hostInterface, es)
    ensures After(maxVMs, hostInterface, es).hist.revived == LateEntries(maxVMs, hostInterface, es)
    ensures LateEntries(maxVMs, hostInterface, es) == {} <==> NoneLingers(maxVMs, hostInterface, es)
  {
    hide Safe, Enabled, Apply, Lingers;
    FreshRunAgrees(maxVMs, hostInterface, es);
    var s, late := After(maxVMs, hostInterface, es), LateEntries(maxVMs, hostInterface, es);
    forall id: Id
      ensures id in s.hist.revived <==> id in late
      ensures Lingers(Init(maxVMs, hostInterface), es, id) <==> id in late
    {
      RevivedInRun(Init(maxVMs, hostInterface), es, id);
      assert id in s.hist.revived ==> id in s.store;
    }
  }

  /** No trailing Put of Pause or Resume: only creates, deletes, clean-ups and shutdowns. */
  predicate NoPutBack(es: seq<Event>) {
    forall i :: 0 <= i < |es| ==> !es[i].PutBack?
  }

  lemma {:induction false} NothingLingers(s: Node, es: seq<Event>, id: Id)
    requires IsRun(s, es) && NoPutBack(es)
    ensures !Lingers(s, es, id)
    decreases |es|
  {
    hide Enabled, Apply, Forgotten;
    if es != [] {
      assert !es[0].PutBack?;
      NothingLingers(Apply(s, es[0]), es[1..], id);
    }
  }

  lemma NoneLate(maxVMs: int, hostInterface: string, es: seq<Event>)
    requires Reachable(maxVMs, hostInterface, es) && NoPutBack(es)
    ensures LateEntries(maxVMs, hostInterface, es) == {} && NoneLingers(maxVMs, hostInterface, es)
  {
    hide After, Lingers, IsRun;
    forall id: Id ensures !Lingers(Init(maxVMs, hostInterface), es, id) {
      NothingLingers(Init(maxVMs, hostInterface), es, id);
    }
  }

  /** With unused IDs no slot is orphaned and, at any time, whatever runs is stored or being
      created, whatever is stored runs, is being deleted, or was put back late; and what was put
      back late is stored with nothing running behind it. */
  lemma StoreTracksRuntime(maxVMs: int, hostInterface: string, es: seq<Event>)
    requires Fresh(maxVMs, hostInterface, es)
    ensures var s, late := After(maxVMs, hostInterface, es), LateEntries(maxVMs, hostInterface, es);
      && Orphans(s) == {}
      && (forall i :: i in s.vms ==> i in s.store || Publishing(s.ops, i))
      && (forall i :: i in s.store ==> i in s.vms || Removing(s.ops, i) || i in late)
      && late <= s.store - s.vms.Keys
  {
    hide After, LateEntries, Lingers;
    FreshRunAgrees(maxVMs, hostInterface, es);
    RevivedAreLate(maxVMs, hostInterface, es);
  }

  /** When nothing is in flight, the store holds the running sandboxes and the late entries; so
      store and runtime agree, in IDs and in counts, if and only if every late Put of the run was
      followed by a Delete of its ID. */
  lemma QuiescentAgreement(maxVMs: int, hostInterface: string, es: seq<Event>)
    requires Fresh(maxVMs, hostInterface, es) && After(maxVMs, hostInterface, es).ops == map[]
    ensures var s, late := After(maxVMs, hostInterface, es), LateEntries(maxVMs, hostInterface, es);
      && s.store == s.vms.Keys + late && s.vms.Keys !! late
      && |s.net.taken| == |s.vms|
      && (s.store == s.vms.Keys <==> NoneLingers(maxVMs, hostInterface, es))
      && (|s.net.taken| == |s.store| <==> NoneLingers(maxVMs, hostInterface, es))
  {
    hide After, Apply, Enabled, Safe, Fresh, Reachable, Orphans, LateEntries, Lingers, NoneLingers;
    FreshIsReachable(maxVMs, hostInterface, es);
    var s, late := After(maxVMs, hostInterface, es), LateEntries(maxVMs, hostInterface, es);
    FreshRunAgrees(maxVMs, hostInterface, es);
    RevivedAreLate(maxVMs, hostInterface, es);
    EveryRunIsSafe(maxVMs, hostInterface, es);
    EverySlotRuns(s);
    assert s.store == s.vms.Keys + late;
    assert |s.vms| == |s.vms.Keys|;
  }

  /** Without trailing Puts they always agree when nothing is in flight: `Pool.Count()` is `VMStore.Count()`. */
  lemma AgreementWithoutPause(maxVMs: int, hostInterface: string, es: seq<Event>)
    requires Fresh(maxVMs, hostInterface, es) && NoPutBack(es) && After(maxVMs, hostInterface, es).ops == map[]
    ensures var s := After(maxVMs, hostInterface, es);
      s.store == s.vms.Keys && |s.net.taken| == |s.store| <= SlotLimit(maxVMs)
  {
    hide After, Lingers, Fresh, Reachable, NoneLingers, LateEntries;
    FreshIsReachable(maxVMs, hostInterface, es);
    NoneLate(maxVMs, hostInterface, es);
    QuiescentAgreement(maxVMs, hostInterface, es);
    SandboxesBounded(maxVMs, hostInterface, es);
  }

  lemma EverySlotRuns(s: Node)
    requires Safe(s) && Orphans(s) == {} && s.ops == map[]
    ensures |s.net.taken| == |s.vms|
  {
    hide HostTracked;
    HoldersFit(s);
    assert HoldingCalls(s) == {};
    forall x | x in s.net.taken
      ensures exists i :: i in s.vms && s.vms[i] == x
    {
      assert s.hist.owner[x].Entry? by { assert x !in Orphans(s); }
      assert s.vms[s.hist.owner[x].id] == x;
    }
    KeysReaching(s.vms, s.net.taken);
  }

  /** The store can exceed the slot limit only by deletes that the runtime has served and by
      late entries, although the orchestrator's own count check races with its Put. */
  lemma StoreBounded(maxVMs: int, hostInterface: string, es: seq<Event>)
    requires Fresh(maxVMs, hostInterface, es)
    ensures var s, late := After(maxVMs, hostInterface, es), LateEntries(maxVMs, hostInterface, es);
      && |s.store| <= SlotLimit(maxVMs) + |RemovingCalls(s.ops)| + |late|
      && (NoPutBack(es) ==> late == {})
  {
    hide After, Safe, Apply, Enabled, LateEntries, Lingers;
    var s, late := After(maxVMs, hostInterface, es), LateEntries(maxVMs, hostInterface, es);
    FreshRunAgrees(maxVMs, hostInterface, es);
    RevivedAreLate(maxVMs, hostInterface, es);
    if NoPutBack(es) {
      NoneLate(maxVMs, hostInterface, es);
    }
    SandboxesBounded(maxVMs, hostInterface, es);
    RemovingIdsFit(s.ops);
    SubsetSize(s.store, s.vms.Keys + RemovingIds(s.ops) + late);
    assert |s.vms| == |s.vms.Keys|;
    UnionSize(s.vms.Keys, RemovingIds(s.ops));
    UnionSize(s.vms.Keys + RemovingIds(s.ops), late);
  }

  ghost function RemovingCalls(ops: map<Call, Op>): set<Call> {
    set c | c in ops && Removes(ops[c])
  }

  ghost function RemovingIds(ops: map<Call, Op>): set<Id> {
    set c | c in ops && Removes(ops[c]) :: ops[c].id
  }

  lemma RemovingIdsFit(ops: map<Call, Op>)
    ensures |RemovingIds(ops)| <= |RemovingCalls(ops)|
  {
    var m := map c | c in RemovingCalls(ops) :: ops[c].id;
    forall i | i in RemovingIds(ops)
      ensures exists c :: c in m && m[c] == i
    {
      var c :| c in ops && Removes(ops[c]) && ops[c].id == i;
      assert m[c] == i;
    }
    KeysReaching(m, RemovingIds(ops));
    assert |m| == |m.Keys| && m.Keys == RemovingCalls(ops);
  }

  lemma UnionSize<T>(a: set<T>, b: set<T>)
    ensures |a + b| <= |a| + |b|
  {
  }
}
