/** What a run of the node system leaves on the host: rules and devices, counted by its events. */
module NodeHost {
  import opened Aggregates
  import opened SlotAddress
  import opened HostNetwork
  import opened SlotPool
  import opened NodeSystem
  import opened NodeAgreement

  /** The step fails after appending the rule, or fails to delete it. */
  ghost predicate Leaves(s: Node, e: Event, rule: Rule)
    requires Enabled(s, e)
  {
    match e
    case Allocate(_, fault, _) => rule in AllocateLeftovers(s.net, fault)
    case GiveBack(c, r) => rule in Undeleted(NewSlot(s.ops[c].slot), s.net.hostInterface, r)
    case Release(c, r) => rule in Undeleted(NewSlot(s.ops[c].slot), s.net.hostInterface, r)
    case _ => false
  }

  /** How many steps of a run leave the rule behind. */
  ghost function TimesLeft(s: Node, es: seq<Event>, rule: Rule): nat
    requires IsRun(s, es)
    decreases |es|
  {
    if es == [] then 0 else (if Leaves(s, es[0], rule) then 1 else 0) + TimesLeft(Apply(s, es[0]), es[1..], rule)
  }

  lemma AtMostOnce(slot: Slot, hostInterface: string, r: Removal, rule: Rule)
    ensures Deleted(slot, hostInterface, r)[rule] <= 1
  {
  }

  lemma LeftoversStep(s: Node, e: Event, rule: Rule)
    requires Enabled(s, e)
    ensures Apply(s, e).hist.leftovers[rule] == s.hist.leftovers[rule] + (if Leaves(s, e, rule) then 1 else 0)
  {
    hide NewSlot, Deleted, AllocateResult, ReleaseResult, LeastFree;
    match e {
      case Allocate(_, fault, _) =>
        var slot := NewSlot(LeastFree(s.net.taken, 0, s.net.maxSlots));
        AtMostOnce(slot, s.net.hostInterface,
                   Removal(fault == NatIn || fault == NatMasquerade, fault == NatMasquerade, false, true), rule);
      case GiveBack(c, r) =>
        AtMostOnce(NewSlot(s.ops[c].slot), s.net.hostInterface, Removal(!r.out, !r.inward, !r.masquerade, true), rule);
      case Release(c, r) =>
        AtMostOnce(NewSlot(s.ops[c].slot), s.net.hostInterface, Removal(!r.out, !r.inward, !r.masquerade, true), rule);
      case _ => OtherStepFrame(s, e);
    }
  }

  lemma {:induction false} LeftoversInRun(s: Node, es: seq<Event>, rule: Rule)
    requires IsRun(s, es)
    ensures Final(s, es).hist.leftovers[rule] == s.hist.leftovers[rule] + TimesLeft(s, es, rule)
    decreases |es|
  {
    hide Enabled, Apply, Leaves;
    if es != [] {
      LeftoversStep(s, es[0], rule);
      LeftoversInRun(Apply(s, es[0]), es[1..], rule);
    }
  }

  /** How often a rule of slot `x` is on the host: once per allocated slot that has it, which for a
      forwarding rule is `x` alone, plus once per step that left it behind. */
  lemma RulesAccounted(maxVMs: int, hostInterface: string, es: seq<Event>, x: int, rule: Rule)
    requires Reachable(maxVMs, hostInterface, es)
    requires rule in Rules(After(maxVMs, hostInterface, es).net, x)
    ensures var s := After(maxVMs, hostInterface, es);
      && s.net.rules[rule] == |Owners(s.net.taken, x, rule)| + TimesLeft(Init(maxVMs, hostInterface), es, rule)
      && ((rule.Masquerade? ==> 0 <= x < 16384 && s.hist.peak <= 16384) ==>
            |Owners(s.net.taken, x, rule)| == if x in s.net.taken then 1 else 0)
  {
    EveryRunIsSafe(maxVMs, hostInterface, es);
    hide Owned, RulesOf, NewSlot, Accounts, TapNames, Owners, IsRun, Final;
    var s := After(maxVMs, hostInterface, es);
    RuleCount(s.net, s.hist.leftovers, x, rule);
    LeftoversInRun(Init(maxVMs, hostInterface), es, rule);
    if rule.Masquerade? ==> 0 <= x < 16384 && s.hist.peak <= 16384 {
      forall i | i in s.net.taken
        ensures 0 <= i < s.hist.peak
      {
        assert s.hist.issued[i] >= 1;
      }
      SingleOwner(s.net.taken, x, rule);
    }
  }

  /** Over every run each allocated slot has its three rules on the host. */
  lemma AllocatedHaveRules(maxVMs: int, hostInterface: string, es: seq<Event>, x: int, rule: Rule)
    requires Reachable(maxVMs, hostInterface, es)
    requires var n := After(maxVMs, hostInterface, es).net; x in n.taken && rule in Rules(n, x)
    ensures rule in After(maxVMs, hostInterface, es).net.rules
  {
    hide After, Rules, Reachable;
    RulesAccounted(maxVMs, hostInterface, es, x, rule);
    assert x in Owners(After(maxVMs, hostInterface, es).net.taken, x, rule);
  }

  /** Over every run the three are these: forwarding both ways between the slot's device and the configured
      interface ("eth0" for none), and masquerading for the guest's /30 block. */
  lemma AllocatedReachOut(maxVMs: int, hostInterface: string, es: seq<Event>, x: int)
    requires Reachable(maxVMs, hostInterface, es) && x in After(maxVMs, hostInterface, es).net.taken
    ensures var rules, s, i := After(maxVMs, hostInterface, es).net.rules, NewSlot(x),
          if hostInterface == "" then "eth0" else hostInterface;
      && ForwardOut(s.tapName, i) in rules && ForwardIn(s.tapName, i) in rules
      && Masquerade(s.guestIp + "/30", i) in rules
  {
    hide After, Reachable, Safe, NewSlot, RulesOf;
    EveryRunIsSafe(maxVMs, hostInterface, es);
    var s, i := NewSlot(x), if hostInterface == "" then "eth0" else hostInterface;
    RulesCarry(s, After(maxVMs, hostInterface, es).net.hostInterface);
    AllocatedHaveRules(maxVMs, hostInterface, es, x, ForwardOut(s.tapName, i));
    AllocatedHaveRules(maxVMs, hostInterface, es, x, ForwardIn(s.tapName, i));
    AllocatedHaveRules(maxVMs, hostInterface, es, x, Masquerade(s.guestIp + "/30", i));
  }

  /** The step's deletion of a device, if it makes one, succeeds. */
  ghost predicate DeletesDevice(s: Node, e: Event) {
    match e
    case Allocate(_, fault, undoOk) => RollsBack(s.net, fault) ==> undoOk
    case GiveBack(_, r) => r.tap
    case Release(_, r) => r.tap
    case _ => true
  }

  ghost predicate AllDevicesDeleted(s: Node, es: seq<Event>)
    requires IsRun(s, es)
    decreases |es|
  {
    es == [] || (DeletesDevice(s, es[0]) && AllDevicesDeleted(Apply(s, es[0]), es[1..]))
  }

  lemma TapsStep(s: Node, e: Event)
    requires Enabled(s, e)
    ensures Apply(s, e).hist.tapsClean <==> s.hist.tapsClean && DeletesDevice(s, e)
  {
    hide NewSlot, Undeleted, AllocateResult, ReleaseResult, AllocateLeftovers, RollsBack, Plus;
    if !e.Allocate? && !e.GiveBack? && !e.Release? {
      OtherStepFrame(s, e);
    }
  }

  lemma {:induction false} TapsInRun(s: Node, es: seq<Event>)
    requires IsRun(s, es)
    ensures Final(s, es).hist.tapsClean <==> s.hist.tapsClean && AllDevicesDeleted(s, es)
    decreases |es|
  {
    hide Enabled, Apply, DeletesDevice;
    if es != [] {
      TapsStep(s, es[0]);
      TapsInRun(Apply(s, es[0]), es[1..]);
    }
  }

  /** Over every run whose device deletions succeed, the host's devices are those of the allocated slots. */
  lemma DevicesAccounted(maxVMs: int, hostInterface: string, es: seq<Event>)
    requires Reachable(maxVMs, hostInterface, es) && AllDevicesDeleted(Init(maxVMs, hostInterface), es)
    ensures var s := After(maxVMs, hostInterface, es); s.net.taps == TapNames(s.net.taken)
  {
    EveryRunIsSafe(maxVMs, hostInterface, es);
    hide Owned, Accounts, TapNames, IsRun, Final, AllDevicesDeleted;
    TapsInRun(Init(maxVMs, hostInterface), es);
  }
}
