/** network/tap.go and network/iptables.go: the host's TAP devices and iptables chains.
    Every external command is one step that either takes effect or fails without effect;
    which ones fail is an argument. */
module HostNetwork {
  import opened Aggregates
  import opened SlotAddress

  datatype Rule =
    | ForwardOut(tap: string, hostInterface: string)
    | ForwardIn(tap: string, hostInterface: string)
    | Masquerade(source: string, hostInterface: string)

  /** The first failing command of a TAP creation followed by a NAT set-up. */
  datatype Fault = NoFault | TapAdd | TapAddress | TapUp | NatOut | NatIn | NatMasquerade

  predicate TapFault(f: Fault) { f == TapAdd || f == TapAddress || f == TapUp }

  predicate NatFault(f: Fault) { f == NatOut || f == NatIn || f == NatMasquerade }

  /** Which deletions succeed when a slot is torn down. */
  datatype Removal = Removal(out: bool, inward: bool, masquerade: bool, tap: bool)

  function InterfaceOrDefault(name: string): string {
    if name == "" then "eth0" else name
  }

  function OutRule(slot: Slot, hostInterface: string): Rule {
    ForwardOut(slot.tapName, InterfaceOrDefault(hostInterface))
  }

  function InRule(slot: Slot, hostInterface: string): Rule {
    ForwardIn(slot.tapName, InterfaceOrDefault(hostInterface))
  }

  function MasqueradeRule(slot: Slot, hostInterface: string): Rule {
    Masquerade(slot.guestIp + "/30", InterfaceOrDefault(hostInterface))
  }

  function When(b: bool, rule: Rule): multiset<Rule> {
    if b then multiset{rule} else multiset{}
  }

  /** The three rules a slot needs. */
  ghost function RulesOf(slot: Slot, hostInterface: string): multiset<Rule> {
    Deleted(slot, hostInterface, Removal(true, true, true, true))
  }

  /** The rules already appended when `fault` interrupts the set-up of a slot. */
  ghost function LeftBehind(slot: Slot, hostInterface: string, fault: Fault): multiset<Rule> {
    Deleted(slot, hostInterface, Removal(fault == NatIn || fault == NatMasquerade, fault == NatMasquerade, false, true))
  }

  /** The rules of a slot whose deletion succeeds in a teardown. */
  ghost function Deleted(slot: Slot, hostInterface: string, r: Removal): multiset<Rule> {
    Plus(Plus(When(r.out, OutRule(slot, hostInterface)), When(r.inward, InRule(slot, hostInterface))),
         When(r.masquerade, MasqueradeRule(slot, hostInterface)))
  }

  /** The rules of a slot that a teardown fails to delete. */
  ghost function Undeleted(slot: Slot, hostInterface: string, r: Removal): multiset<Rule> {
    Deleted(slot, hostInterface, Removal(!r.out, !r.inward, !r.masquerade, true))
  }

  /** Forwarding both ways between the slot's device and the configured interface, and masquerading for the
      guest's /30 block; "eth0" stands in for no name. */
  lemma RulesCarry(slot: Slot, hostInterface: string)
    ensures var i := if hostInterface == "" then "eth0" else hostInterface;
      RulesOf(slot, hostInterface)
        == multiset{ForwardOut(slot.tapName, i), ForwardIn(slot.tapName, i), Masquerade(slot.guestIp + "/30", i)}
  {
  }

  /** Each deletion takes its own rule. */
  lemma DeletedByKind(slot: Slot, hostInterface: string, r: Removal, rule: Rule)
    requires rule in RulesOf(slot, hostInterface)
    ensures Deleted(slot, hostInterface, r)[rule]
      == if (rule.ForwardOut? && r.out) || (rule.ForwardIn? && r.inward) || (rule.Masquerade? && r.masquerade)
         then 1 else 0
  {
  }

  lemma DeletedOrNot(slot: Slot, hostInterface: string, r: Removal)
    ensures RulesOf(slot, hostInterface) == Plus(Undeleted(slot, hostInterface, r), Deleted(slot, hostInterface, r))
  {
  }

  lemma NothingLeftBehind(slot: Slot, hostInterface: string, fault: Fault)
    requires fault != NatIn && fault != NatMasquerade
    ensures LeftBehind(slot, hostInterface, fault) == multiset{}
  {
  }

  /** `iptables -D`: removes the first rule equal to `rule`; fails when there is none. */
  function DeleteFirst(chain: seq<Rule>, rule: Rule): (r: seq<Rule>)
    ensures multiset(r) == multiset(chain) - multiset{rule}
    ensures forall x :: x in r ==> x in chain
  {
    if chain == [] then []
    else
      assert chain == [chain[0]] + chain[1..];
      if chain[0] == rule then chain[1..] else [chain[0]] + DeleteFirst(chain[1..], rule)
  }

  /** A chain after the deletion of a rule, which fails or finds the first copy if there is one. */
  function Remaining(chain: seq<Rule>, rule: Rule, ok: bool): seq<Rule> {
    if ok then DeleteFirst(chain, rule) else chain
  }

  class Host {
    var taps: set<string>
    var forward: seq<Rule>
    var postrouting: seq<Rule>

    /** Masquerading lives in the nat table, forwarding in the filter table. */
    ghost predicate Valid()
      reads this
    {
      (forall r :: r in forward ==> !r.Masquerade?) && (forall r :: r in postrouting ==> r.Masquerade?)
    }

    ghost function Rules(): multiset<Rule>
      reads this
    {
      multiset(forward) + multiset(postrouting)
    }

    constructor ()
      ensures Valid() && taps == {} && Rules() == multiset{}
    {
      taps, forward, postrouting := {}, [], [];
    }

    method DestroyTap(slot: Slot, ok: bool)
      modifies this`taps
      ensures taps == if ok then old(taps) - {slot.tapName} else old(taps)
      ensures Rules() == old(Rules())
    {
      if ok {
        taps := taps - {slot.tapName};
      }
    }

    method CreateTap(slot: Slot, fault: Fault, undoOk: bool) returns (ok: bool)
      modifies this`taps
      ensures ok <==> !TapFault(fault)
      ensures ok ==> taps == old(taps) + {slot.tapName}
      ensures fault == TapAdd ==> taps == old(taps)
      ensures !ok && fault != TapAdd ==>
        taps == if undoOk then old(taps) - {slot.tapName} else old(taps) + {slot.tapName}
      ensures Rules() == old(Rules())
    {
      if fault == TapAdd {
        return false;
      }
      taps := taps + {slot.tapName};
      if fault == TapAddress {
        DestroyTap(slot, undoOk);
        return false;
      }
      if fault == TapUp {
        DestroyTap(slot, undoOk);
        return false;
      }
      return true;
    }

    method AppendForward(rule: Rule)
      requires Valid() && !rule.Masquerade?
      modifies this`forward
      ensures Valid() && Rules() == Plus(old(Rules()), When(true, rule))
      ensures forward == old(forward) + [rule]
    {
      forward := forward + [rule];
    }

    method AppendPostrouting(rule: Rule)
      requires Valid() && rule.Masquerade?
      modifies this`postrouting
      ensures Valid() && Rules() == Plus(old(Rules()), When(true, rule))
      ensures postrouting == old(postrouting) + [rule]
    {
      postrouting := postrouting + [rule];
    }

    method SetupNat(slot: Slot, hostInterface: string, fault: Fault) returns (ok: bool)
      requires Valid()
      modifies this`forward, this`postrouting
      ensures Valid()
      ensures ok <==> !NatFault(fault)
      ensures Rules() == Plus(old(Rules()),
        if ok then RulesOf(slot, hostInterface) else LeftBehind(slot, hostInterface, fault))
      ensures var i := if hostInterface == "" then "eth0" else hostInterface;
        ok ==>
          && forward == old(forward) + [ForwardOut(slot.tapName, i), ForwardIn(slot.tapName, i)]
          && postrouting == old(postrouting) + [Masquerade(slot.guestIp + "/30", i)]
    {
      hide Host.Rules, Plus;
      var iface := if hostInterface == "" then "eth0" else hostInterface;
      ghost var before, a, b, c := Rules(), When(true, OutRule(slot, hostInterface)),
        When(true, InRule(slot, hostInterface)), When(true, MasqueradeRule(slot, hostInterface));
      PlusLaws(before, a, b);
      PlusLaws(before, Plus(a, b), c);
      PlusLaws(a, multiset{}, multiset{});
      PlusLaws(Plus(a, b), multiset{}, multiset{});
      NothingLeftBehind(slot, hostInterface, NatOut);
      if fault == NatOut {
        return false;
      }
      AppendForward(ForwardOut(slot.tapName, iface));
      if fault == NatIn {
        return false;
      }
      AppendForward(ForwardIn(slot.tapName, iface));
      if fault == NatMasquerade {
        return false;
      }
      AppendPostrouting(Masquerade(slot.guestIp + "/30", iface));
      return true;
    }

    method DeleteForward(rule: Rule, ok: bool)
      requires Valid() && !rule.Masquerade?
      modifies this`forward
      ensures Valid()
      ensures Rules() == Minus(old(Rules()), When(ok, rule))
      ensures forward == Remaining(old(forward), rule, ok)
    {
      if ok {
        forward := DeleteFirst(forward, rule);
      }
    }

    method DeletePostrouting(rule: Rule, ok: bool)
      requires Valid() && rule.Masquerade?
      modifies this`postrouting
      ensures Valid()
      ensures Rules() == Minus(old(Rules()), When(ok, rule))
      ensures postrouting == Remaining(old(postrouting), rule, ok)
    {
      if ok {
        postrouting := DeleteFirst(postrouting, rule);
      }
    }

    /** Errors are ignored: a rule that is absent, or whose deletion fails, is skipped. */
    method TeardownNat(slot: Slot, hostInterface: string, r: Removal)
      requires Valid()
      modifies this`forward, this`postrouting
      ensures Valid()
      ensures Rules() == Minus(old(Rules()), Deleted(slot, hostInterface, r))
      ensures var i := if hostInterface == "" then "eth0" else hostInterface;
        && forward == Remaining(Remaining(old(forward), ForwardOut(slot.tapName, i), r.out),
                                ForwardIn(slot.tapName, i), r.inward)
        && postrouting == Remaining(old(postrouting), Masquerade(slot.guestIp + "/30", i), r.masquerade)
    {
      hide Host.Rules, When, Plus, Minus;
      var iface := if hostInterface == "" then "eth0" else hostInterface;
      ghost var before, a, b := Rules(), When(r.out, OutRule(slot, hostInterface)),
        When(r.inward, InRule(slot, hostInterface));
      MinusLaws(before, a, b);
      MinusLaws(before, Plus(a, b), When(r.masquerade, MasqueradeRule(slot, hostInterface)));
      DeleteForward(ForwardOut(slot.tapName, iface), r.out);
      DeleteForward(ForwardIn(slot.tapName, iface), r.inward);
      DeletePostrouting(Masquerade(slot.guestIp + "/30", iface), r.masquerade);
    }
  }
}
