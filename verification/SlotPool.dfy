/** network/pool.go: the first-fit pool of network slots. */
module SlotPool {
  import opened Wrappers
  import opened Aggregates
  import opened SlotAddress
  import opened HostNetwork

  /** The pool and the part of the host it manages, as one value. */
  datatype Network = Network(
    maxSlots: nat,
    hostInterface: string,
    taken: set<int>,
    taps: set<string>,
    rules: multiset<Rule>)

  ghost predicate InRange(n: Network) {
    forall i :: i in n.taken ==> 0 <= i < n.maxSlots
  }

  /** The least ID not below `from` that is free, or `max` when there is none. */
  function LeastFree(taken: set<int>, from: int, max: int): (id: int)
    requires from <= max
    ensures from <= id <= max
    ensures forall i :: from <= i < id ==> i in taken
    ensures id < max ==> id !in taken
    decreases max - from
  {
    if from == max || from !in taken then from else LeastFree(taken, from + 1, max)
  }

  ghost function Rules(n: Network, id: int): multiset<Rule> {
    RulesOf(NewSlot(id), n.hostInterface)
  }

  function TapOf(id: int): string { NewSlot(id).tapName }

  ghost function Granted(n: Network, id: int): Network {
    n.(taken := n.taken + {id}, taps := n.taps + {TapOf(id)}, rules := Plus(n.rules, Rules(n, id)))
  }

  /** A failed call removes the device it created, if it can, and leaves the rules it appended. */
  ghost function RolledBack(n: Network, id: int, fault: Fault, undoOk: bool): Network {
    n.(taps := if undoOk then n.taps - {TapOf(id)} else n.taps + {TapOf(id)},
       rules := Plus(n.rules, LeftBehind(NewSlot(id), n.hostInterface, fault)))
  }

  /** What a call of Allocate leaves behind and returns, by its first failing command. */
  ghost function AllocateResult(n: Network, fault: Fault, undoOk: bool): (Network, Option<int>)
  {
    var id := LeastFree(n.taken, 0, n.maxSlots);
    if id == n.maxSlots || fault == TapAdd then (n, None)
    else if fault == NoFault then (Granted(n, id), Some(id))
    else (RolledBack(n, id, fault, undoOk), None)
  }

  function SlotAt(id: Option<int>): Option<Slot> {
    if id.Some? then Some(NewSlot(id.value)) else None
  }

  /** What a call of Release leaves behind; it does not look at who owns the slot. */
  ghost function ReleaseResult(n: Network, id: int, r: Removal): Network {
    n.(taken := n.taken - {id},
       taps := if r.tap then n.taps - {TapOf(id)} else n.taps,
       rules := Minus(n.rules, Deleted(NewSlot(id), n.hostInterface, r)))
  }

  class Pool {
    const maxSlots: nat
    const hostInterface: string
    const host: Host
    var inUse: map<int, bool>

    /** The map only ever holds `true`: entries are removed, never cleared. */
    ghost predicate Valid()
      reads this, host
    {
      host.Valid() && maxSlots > 0
      && (forall i :: i in inUse ==> inUse[i])
      && InRange(View())
    }

    ghost function View(): Network
      reads this, host
    {
      Network(maxSlots, hostInterface, inUse.Keys, host.taps, host.Rules())
    }

    constructor (maxSlots: int, hostInterface: string, host: Host)
      requires host.Valid()
      ensures Valid() && this.host == host && inUse == map[]
      ensures this.maxSlots == if maxSlots <= 0 then 255 else maxSlots
      ensures this.hostInterface == if hostInterface == "" then "eth0" else hostInterface
    {
      this.maxSlots := if maxSlots <= 0 then 255 else maxSlots;
      this.hostInterface := if hostInterface == "" then "eth0" else hostInterface;
      this.host := host;
      this.inUse := map[];
    }

    /** The scan at the start of Allocate; -1 when every slot is taken. */
    method FirstFree() returns (id: int)
      requires Valid()
      ensures var free := LeastFree(inUse.Keys, 0, maxSlots); id == if free == maxSlots then -1 else free
    {
      id := -1;
      var i := 0;
      while i < maxSlots
        invariant 0 <= i <= maxSlots
        invariant id == -1 && (forall j :: 0 <= j < i ==> j in inUse)
      {
        if !(i in inUse && inUse[i]) {
          id := i;
          break;
        }
        i := i + 1;
      }
    }

    /** The host half of Allocate: device, then rules, with the device removed when the rules fail. */
    method Prepare(s: Slot, fault: Fault, undoOk: bool) returns (ok: bool)
      requires host.Valid()
      modifies host
      ensures host.Valid() && (ok <==> fault == NoFault)
      ensures ok ==> host.taps == old(host.taps) + {s.tapName}
      ensures fault == TapAdd ==> host.taps == old(host.taps)
      ensures !ok && fault != TapAdd ==>
        host.taps == if undoOk then old(host.taps) - {s.tapName} else old(host.taps) + {s.tapName}
      ensures host.Rules() == Plus(old(host.Rules()),
        if ok then RulesOf(s, hostInterface) else LeftBehind(s, hostInterface, fault))
    {
      hide Host.Rules, RulesOf, LeftBehind, Plus;
      ghost var before := host.Rules();
      ok := host.CreateTap(s, fault, undoOk);
      if !ok {
        NothingLeftBehind(s, hostInterface, fault);
        PlusLaws(before, multiset{}, multiset{});
        return;
      }
      ok := host.SetupNat(s, hostInterface, fault);
      if !ok {
        host.DestroyTap(s, undoOk);
      }
    }

    method Allocate(fault: Fault, undoOk: bool) returns (slot: Option<Slot>)
      requires Valid()
      modifies this, host
      ensures Valid()
      ensures View() == AllocateResult(old(View()), fault, undoOk).0
      ensures slot == SlotAt(AllocateResult(old(View()), fault, undoOk).1)
      ensures slot.Some? <==> fault == NoFault && |old(inUse.Keys)| < maxSlots
      ensures slot == None ==> inUse.Keys == old(inUse.Keys)
      ensures slot.Some? ==>
        && AllocateResult(old(View()), fault, undoOk).1 == Some(slot.value.id)
        && slot.value == NewSlot(slot.value.id) && slot.value.id !in old(inUse)
        && inUse.Keys == old(inUse.Keys) + {slot.value.id}
    {
      hide NewSlot, RulesOf, LeftBehind, LeastFree, Host.Rules, Plus;
      GrantedIff(View(), fault, undoOk);
      var id := FirstFree();
      if id < 0 {
        return None;
      }
      var s := NewSlot(id);
      EverySlotHasDevice(id);
      ghost var before := View();
      NothingLeftBehind(s, hostInterface, TapAdd);
      PlusLaws(before.rules, multiset{}, multiset{});
      var ok := Prepare(s, fault, undoOk);
      if !ok {
        return None;
      }
      inUse := inUse[id := true];
      assert inUse.Keys == before.taken + {id};
      return Some(s);
    }

    method Release(slot: Slot, r: Removal)
      requires Valid() && slot == NewSlot(slot.id)
      modifies this, host
      ensures Valid()
      ensures View() == ReleaseResult(old(View()), slot.id, r)
      ensures inUse.Keys == old(inUse.Keys) - {slot.id}
    {
      hide NewSlot, Deleted, Host.Rules, Minus;
      host.TeardownNat(slot, hostInterface, r);
      host.DestroyTap(slot, r.tap);
      inUse := inUse - {slot.id};
    }

    method Count() returns (n: nat)
      ensures n == |View().taken|
    {
      n := |inUse|;
    }
  }

  // ----- first fit and the high-water mark

  /** A slot that is handed out has the least free ID, and that ID lies below the new count. */
  lemma AllocateFirstFit(n: Network, fault: Fault, undoOk: bool)
    requires InRange(n)
    ensures var (q, r) := AllocateResult(n, fault, undoOk);
      InRange(q) && (r.Some? ==>
        r.value !in n.taken && (forall i :: 0 <= i < r.value ==> i in n.taken)
        && q.taken == n.taken + {r.value}
        && 0 <= r.value < |q.taken| <= n.maxSlots)
  {
    hide NewSlot, RulesOf, LeftBehind;
    var (q, r) := AllocateResult(n, fault, undoOk);
    CountWithinRange(q);
    if r.Some? {
      InitialSegmentSize(r.value + 1);
      SubsetSize(Below(r.value + 1), q.taken);
    }
  }

  lemma CountWithinRange(n: Network)
    requires InRange(n)
    ensures |n.taken| <= n.maxSlots
  {
    InitialSegmentSize(n.maxSlots);
    SubsetSize(n.taken, Below(n.maxSlots));
  }

  /** Without a failing command, Allocate refuses exactly when all slots are taken. */
  lemma AllocateRefusesIffFull(n: Network, undoOk: bool)
    requires InRange(n)
    ensures AllocateResult(n, NoFault, undoOk).1 == None <==> |n.taken| == n.maxSlots
  {
    var all := Below(n.maxSlots);
    InitialSegmentSize(n.maxSlots);
    var id := LeastFree(n.taken, 0, n.maxSlots);
    if id == n.maxSlots {
      assert all == n.taken;
    } else {
      SubsetSize(n.taken, all - {id});
    }
  }

  lemma GrantedIff(n: Network, fault: Fault, undoOk: bool)
    ensures InRange(n) ==> (AllocateResult(n, fault, undoOk).1 != None <==> fault == NoFault && |n.taken| < n.maxSlots)
  {
    if InRange(n) {
      AllocateRefusesIffFull(n, undoOk);
      CountWithinRange(n);
    }
  }

  // ----- iptables and TAP accounting

  ghost function Shares(hostInterface: string, ids: set<int>): map<int, multiset<Rule>> {
    map i | i in ids :: RulesOf(NewSlot(i), hostInterface)
  }

  /** The rules on the host are those of the allocated slots, once each, plus `extra`. */
  ghost predicate Accounts(n: Network, extra: multiset<Rule>) {
    n.rules == Plus(Bag(Shares(n.hostInterface, n.taken)), extra)
  }

  /** What a failing call of Allocate adds to the unowned rules. */
  ghost function AllocateLeftovers(n: Network, fault: Fault): multiset<Rule>
  {
    var id := LeastFree(n.taken, 0, n.maxSlots);
    if id == n.maxSlots then multiset{} else LeftBehind(NewSlot(id), n.hostInterface, fault)
  }

  lemma AllocateAccounts(n: Network, extra: multiset<Rule>, fault: Fault, undoOk: bool)
    requires Accounts(n, extra)
    ensures Accounts(AllocateResult(n, fault, undoOk).0, Plus(extra, AllocateLeftovers(n, fault)))
  {
    hide RulesOf, NewSlot, Shares, LeastFree, LeftBehind, Plus;
    var id := LeastFree(n.taken, 0, n.maxSlots);
    PlusLaws(extra, multiset{}, multiset{});
    PlusLaws(n.rules, multiset{}, multiset{});
    PlusLaws(Bag(Shares(n.hostInterface, n.taken)), extra, AllocateLeftovers(n, fault));
    if fault == NoFault || fault == TapAdd {
      NothingLeftBehind(NewSlot(id), n.hostInterface, fault);
    }
    if fault == NoFault && id != n.maxSlots {
      GrantAccounts(n, extra, id);
    }
  }

  lemma GrantAccounts(n: Network, extra: multiset<Rule>, id: int)
    requires id !in n.taken && Accounts(n, extra)
    ensures Accounts(Granted(n, id), extra)
  {
    hide RulesOf, NewSlot, Plus;
    var shares, b := Shares(n.hostInterface, n.taken), Rules(n, id);
    BagInsert(shares, id, b);
    assert shares[id := b] == Shares(n.hostInterface, n.taken + {id});
    PlusLaws(b, Bag(shares), extra);
    PlusLaws(b, Plus(Bag(shares), extra), multiset{});
  }

  /** Releasing an allocated slot removes that slot's own share and nothing else. */
  lemma ReleaseAccounts(n: Network, extra: multiset<Rule>, id: int, r: Removal)
    requires id in n.taken && Accounts(n, extra)
    ensures Accounts(ReleaseResult(n, id, r), Plus(extra, Undeleted(NewSlot(id), n.hostInterface, r)))
  {
    hide RulesOf, NewSlot, Deleted, Undeleted, Plus, Minus;
    var shares := Shares(n.hostInterface, n.taken);
    var gone, kept := Deleted(NewSlot(id), n.hostInterface, r), Undeleted(NewSlot(id), n.hostInterface, r);
    DeletedOrNot(NewSlot(id), n.hostInterface, r);
    BagRemove(shares, id);
    assert shares - {id} == Shares(n.hostInterface, n.taken - {id});
    ReleaseArithmetic(Bag(shares - {id}), extra, gone, kept);
  }

  lemma ReleaseArithmetic<V>(others: multiset<V>, extra: multiset<V>, gone: multiset<V>, kept: multiset<V>)
    ensures Minus(Plus(Plus(Plus(kept, gone), others), extra), gone) == Plus(others, Plus(extra, kept))
  {
  }

  /** Whether a rule of slot `id` is a rule of slot `c` too: masquerading is by address, and addresses
      repeat with period 16384; forwarding is by device, and devices never repeat. */
  predicate Alike(rule: Rule, c: int, id: int) {
    if rule.Masquerade? then c % 16384 == id % 16384 else c == id
  }

  function Owners(ids: set<int>, id: int, rule: Rule): set<int> {
    set c | c in ids && Alike(rule, c, id)
  }

  lemma RuleOwner(hostInterface: string, c: int, id: int, rule: Rule)
    requires rule in RulesOf(NewSlot(id), hostInterface)
    ensures RulesOf(NewSlot(c), hostInterface)[rule] == if Alike(rule, c, id) then 1 else 0
  {
    hide NewSlot, RulesOf;
    NamesInjective(c, id);
    AddressesInjective(c, id);
    RulesApart(NewSlot(c), NewSlot(id), hostInterface, rule);
  }

  lemma RulesApart(s: Slot, t: Slot, hostInterface: string, rule: Rule)
    requires rule in RulesOf(t, hostInterface)
    ensures RulesOf(s, hostInterface)[rule]
      == if (if rule.Masquerade? then s.guestIp == t.guestIp else s.tapName == t.tapName) then 1 else 0
  {
    var a, b := s.guestIp + "/30", t.guestIp + "/30";
    assert a[..|a| - 3] == s.guestIp && b[..|b| - 3] == t.guestIp;
  }

  lemma {:induction false} RuleMultiplicity(hostInterface: string, ids: set<int>, id: int, rule: Rule)
    requires rule in RulesOf(NewSlot(id), hostInterface)
    ensures Bag(Shares(hostInterface, ids))[rule] == |Owners(ids, id, rule)|
    decreases |ids|
  {
    hide RulesOf, NewSlot;
    if c :| c in ids {
      BagRemove(Shares(hostInterface, ids), c);
      assert Shares(hostInterface, ids) - {c} == Shares(hostInterface, ids - {c});
      RuleMultiplicity(hostInterface, ids - {c}, id, rule);
      RuleOwner(hostInterface, c, id, rule);
      assert Owners(ids, id, rule) == Owners(ids - {c}, id, rule) + if Alike(rule, c, id) then {c} else {};
    } else {
      assert Shares(hostInterface, ids) == map[];
    }
  }

  /** Forwarding rules have one owner; so have all rules while the addresses have not wrapped. */
  lemma SingleOwner(ids: set<int>, id: int, rule: Rule)
    requires rule.Masquerade? ==> 0 <= id < 16384 && forall i :: i in ids ==> 0 <= i < 16384
    ensures |Owners(ids, id, rule)| == if id in ids then 1 else 0
  {
    assert Owners(ids, id, rule) == if id in ids then {id} else {};
  }

  /** How often a rule of slot `id` is on the host: once per allocated slot that has it. */
  lemma RuleCount(n: Network, extra: multiset<Rule>, id: int, rule: Rule)
    requires Accounts(n, extra) && rule in Rules(n, id)
    ensures n.rules[rule] == |Owners(n.taken, id, rule)| + extra[rule]
  {
    hide RulesOf, NewSlot;
    RuleMultiplicity(n.hostInterface, n.taken, id, rule);
  }

  /** A release takes a copy of another slot's rule exactly when that is a masquerading rule of a slot
      with the same address, it is on the host, and its deletion succeeds. */
  lemma ReleaseSparesOthers(n: Network, id: int, other: int, rule: Rule, r: Removal)
    requires id != other && rule in Rules(n, other)
    ensures ReleaseResult(n, id, r).rules[rule] == n.rules[rule] -
      if rule.Masquerade? && id % 16384 == other % 16384 && r.masquerade && rule in n.rules then 1 else 0
  {
    hide NewSlot;
    RuleOwner(n.hostInterface, id, other, rule);
  }

  /** But then the two slots share the rule and one of its copies stays: as long as the rules are accounted
      for, releasing a slot leaves every rule of every other allocated slot on the host. */
  lemma ReleaseLeavesOthersRules(n: Network, extra: multiset<Rule>, id: int, other: int, rule: Rule, r: Removal)
    requires Accounts(n, extra) && id in n.taken && other in n.taken && id != other && rule in Rules(n, other)
    ensures rule in ReleaseResult(n, id, r).rules
  {
    hide NewSlot, RulesOf, Deleted, Undeleted, Accounts, Minus, Plus;
    var after := ReleaseResult(n, id, r);
    ReleaseAccounts(n, extra, id, r);
    RuleCount(after, Plus(extra, Undeleted(NewSlot(id), n.hostInterface, r)), other, rule);
    assert other in Owners(after.taken, other, rule);
  }

  /** A failed set-up of slot `id` leaves a rule of slot `x` behind exactly when `x` is `id` and
      the rule had been appended before the failing command. */
  lemma LeftoverOwner(hostInterface: string, id: int, x: int, rule: Rule, fault: Fault)
    requires rule in RulesOf(NewSlot(x), hostInterface)
    ensures LeftBehind(NewSlot(id), hostInterface, fault)[rule] ==
      if id == x
         && ((rule.ForwardOut? && fault in {NatIn, NatMasquerade}) || (rule.ForwardIn? && fault == NatMasquerade))
      then 1 else 0
  {
    hide NewSlot;
    RuleOwner(hostInterface, id, x, rule);
  }

  ghost function TapNames(ids: set<int>): set<string> {
    set i | i in ids :: TapOf(i)
  }

  /** Whether a call of Allocate deletes the device it made. */
  predicate RollsBack(n: Network, fault: Fault) {
    fault != NoFault && fault != TapAdd && LeastFree(n.taken, 0, n.maxSlots) != n.maxSlots
  }

  /** With successful device deletions the devices are those of the allocated slots after every call. */
  lemma AllocateKeepsTaps(n: Network, fault: Fault, undoOk: bool)
    requires n.taps == TapNames(n.taken) && (RollsBack(n, fault) ==> undoOk)
    ensures var q := AllocateResult(n, fault, undoOk).0; q.taps == TapNames(q.taken)
  {
    hide NewSlot, RulesOf, LeftBehind, LeastFree, Plus;
    var free := LeastFree(n.taken, 0, n.maxSlots);
    forall i | i in n.taken
      ensures TapOf(i) == TapOf(free) <==> i == free
    {
      NamesInjective(i, free);
    }
  }

  lemma ReleaseKeepsTaps(n: Network, id: int, r: Removal)
    requires r.tap && n.taps == TapNames(n.taken)
    ensures var q := ReleaseResult(n, id, r); q.taps == TapNames(q.taken)
  {
    hide NewSlot, Deleted;
    forall i | i in n.taken
      ensures TapOf(i) == TapOf(id) <==> i == id
    {
      NamesInjective(i, id);
    }
  }
}
