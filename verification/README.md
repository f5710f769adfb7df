# gitvm: a verified model of the node and of the control plane

gitvm runs sandboxes in Firecracker microVMs. This project models the two parts of it that keep state
under concurrency, and proves what they keep.

**The node.** A first-fit pool hands out network slots (a /30 block, a MAC address, a TAP device and three
iptables rules each). The Firecracker runtime owns one slot per VM, and the orchestrator keeps a second map, the
store, with a count check of its own. Every mutex is held for one step only, so a Create, a Delete or a Pause is
a sequence of steps that interleaves with every other call in flight.

**The control plane.** SQLite tables of nodes and pools, request handlers that place sandboxes on the least
loaded node, and one auto-scaler goroutine that grows and shrinks pools. Every SQL statement is one step; the
handlers and the scaler work on snapshots that may be stale when they are used.

## How it is built

Two layers, tied together. Objects the code updates in place are classes (`HostNetwork.Host`, `SlotPool.Pool`,
`VirtualMachine.VM`, `Firecracker.FirecrackerRuntime`, `VmStore.VMStore`, `Orchestration.Orchestrator`,
`ControlTables.Database`, `Scheduler.Server`, `Scaler.Scaler`); their methods are proved against functions on the
abstract state. Interleaving is a transition system over the same functions (`NodeSystem`, `CapacitySystem`,
`ControlSystem`). For the orchestrator's Create and Delete and for one pool's evaluation, `NodeCalls` and
`ControlCalls` show that the steps, when nothing steps in between, do exactly what the class method does; the
other handlers are one table statement each, or share the functions of their steps.

| file | models |
|---|---|
| `Wrappers`, `Aggregates`, `Rendering` | optional values, sums and multiset unions over maps, number formatting |
| `SlotAddress` | `network/types.go` |
| `HostNetwork` | `network/tap.go`, `network/iptables.go` |
| `SlotPool` | `network/pool.go` |
| `VirtualMachine`, `Firecracker` | `runtime/firecracker/vm.go`, `runtime/firecracker/firecracker.go` |
| `VmStore`, `Orchestration` | `orchestrator/state.go`, `orchestrator/orchestrator.go`, `orchestrator/cleanup.go` |
| `NodeSystem`, `NodeAgreement`, `NodeHost`, `NodeCalls` | the node under interleaving, and its theorems |
| `NodeReports` | what a node reports to the control plane (`node/server.go`) against its room |
| `CapacitySystem` | the orchestrator's count check over any runtime |
| `ControlTables`, `Scheduler` | `controlplane/db.go`, `controlplane/handlers.go` |
| `ScalerRules`, `Scaler` | `controlplane/scaler.go` |
| `ControlSystem`, `ControlLaws`, `ControlCalls` | the control plane under interleaving, and its theorems |
| `Staleness` | when the verdicts the control plane reaches on a snapshot are right |
| `Hysteresis` | the scaler's two thresholds over whole runs of one pool |
| `PoolTurns`, `PoolRounds`, `PoolReversal` | the same with several pools evaluated in turn |

External commands, provider calls, SQL errors, random IDs and clocks are parameters: every result is for every
choice of what fails. A failing command is taken to have had no effect.

## What holds, and what does not

* No two live sandboxes ever share a slot, under any interleaving and even if sandbox IDs repeat. `Release`
  checks no owner; that it never frees another sandbox's slot rests on the locked removal in `Destroy`.
* A slot can be lost. `Create` enters a VM under its ID without looking; if the ID is already there, the older
  entry's slot is never returned. `LostByReuseOnly` shows over runs that this is the only way, `ReuseHappens` that it
  occurs.
* When sandbox IDs are unused at the time they are drawn, store and runtime agree whenever nothing is in flight, if
  and only if every trailing `Put` of a Pause or Resume that came after the runtime had dropped the sandbox was
  followed by another Delete of it. `LatePauseRevives` gives the failing schedule from any state. No program in the
  repository calls the orchestrator's Pause or Resume (the node handlers set the state themselves,
  `node/server.go:174-202`), so `AgreementWithoutPause` is the law of the programs as they are: they always agree.
* The orchestrator's count check alone lets `k` racing creates overshoot the limit by exactly `k` - 1. With the
  Firecracker runtime the slot pool is what holds the limit, for running sandboxes; the store, whose size the node
  reports, can still exceed it by any number of deletes the runtime has served (`ReportExceedsRoom`).
  `ReportWithinRoomIff` says exactly when it does not.
* `Start` leaves the VM directory behind when it fails after making the directory and before the process runs.
* A failed `SetupNAT` leaves the rules it had appended. The accounting theorem counts them.
* Addresses repeat with period 16384, so beyond that many slots two slots share a masquerading rule, once for each. A
  release takes one copy (`ReleaseSparesOthers`) and never the last one another allocated slot needs
  (`ReleaseLeavesOthersRules`).
* A sandbox create counts exactly one sandbox if and only if its node is still online with the load it was
  picked with; two creates that race on one node are counted as one.
* "Empty" means empty in the listing. The row of a machine about to be stopped is empty if and only if its last report
  since the listing, if any, says so (`StoppedNodeEmptyIff`). The node is idle, with no create on its way to it
  either, if and only if moreover every create picked on it has been counted or abandoned (`StoppedNodeIdleIff`). A
  create is abandoned too when its node made the sandbox and only the answer or the count was lost.
  Two schedules start from a resting scaler: `BusyNodeRemoved`, where the node reports sandboxes, and
  `PickedNodeStopped`, where a forwarded create shows nowhere.
* A node declared offline is silent if and only if it has not been heard from since the listing
  (`VerdictRightIffSilent`); `HeardButOffline` is a schedule in which it has.
* The comment that a drain is completed elsewhere (`controlplane/scaler.go:193`) names no code that exists;
  `DrainingEndsIff` lists all the ways a row stops draining, a heartbeat among them.
* With several pools evaluated in turn the scaler can turn round: one drains its only, busy node while others give up
  their empty ones (`BusyDrainTurns`). Exactly when a round can raise or lower a counter is `RiseIff` and `FallIff`:
  above 80 % and below 30 % of what is online at its start, for a pool of a known provider inside its range, and for
  lowering an empty node. So over any run a counter rises only in rounds that start above 80 % and falls only in
  rounds that start below 30 % (`CountersFollowLoad`). It never does both if a round that lowers counters drains no
  busy node and one that raises counters starts with capacity for 30 per pool (`PoolsNeverTurn`), as every run with
  one pool to a round does (`SinglePoolIsGentle`).
* Rows and counters of scaled nodes stay in balance except for failed pool updates and failed row deletions, each
  counted once. With a negative minimum the clamp at zero also unbalances them.

The scaler compares floating-point quotients with 0.8 and 0.3. The model compares integers: `5 * used > 4 * total`
and `10 * used < 3 * total`. The quotient of two integers is correctly rounded, so the two readings agree while the
sums stay far below 2^50.

## Model

| member | source | states |
|---|---|---|
| SlotAddress.SlotUsesItsBlock | network/types.go:23-37 | for every ID, host and guest text are the second and third address of the slot's own aligned /30 block inside 10.0.0.0/16 |
| SlotAddress.AddressesInjective | network/types.go:28-34 | host texts, and guest texts, coincide exactly for IDs equal modulo 16384; no host text is ever a guest text |
| SlotAddress.BlocksDisjoint | network/types.go:28-31 | two slots have the same /30 block or no address in common |
| SlotAddress.NamesInjective | network/types.go:35-42 | MAC texts coincide exactly for IDs equal modulo 65536; device names never |
| SlotAddress.AddressesRead | network/types.go:28-34 | read back as decimal fields, the last two of every host and guest address are four times the ID modulo 16384 plus 1 and plus 2, below 10.0 |
| SlotAddress.NamesRead | network/types.go:35-42 | read back, the MAC is AA:FC:00:00 and the low 16 bits of the ID, high byte first, and the device is gitvm and the ID |
| HostNetwork.Host.CreateTap | network/tap.go:9-28 | which devices exist after each possible failure, with the rollback's own failure |
| HostNetwork.Host.SetupNat | network/iptables.go:6-31 | the three rules, spelled out for the configured interface (eth0 for none), the slot's device and the guest's /30 block, appended in order; or exactly those before the failing command |
| HostNetwork.RulesCarry | network/iptables.go:6-31 | what the three rules of a slot say |
| HostNetwork.Host.TeardownNat | network/iptables.go:34-51 | one copy of each of those three rules whose deletion succeeds is gone; errors and absent rules are skipped |
| SlotPool.Pool.Allocate | network/pool.go:35-67 | device, rules and allocated set after every outcome; the slot returned was free and is now taken |
| SlotPool.Pool.Release | network/pool.go:70-82 | the slot's rules and device are removed and its ID is free, whoever calls |
| SlotPool.AllocateFirstFit | network/pool.go:39-67 | a granted ID is the least free one and lies below the new count, by the pigeonhole principle |
| SlotPool.AllocateRefusesIffFull | network/pool.go:41-49 | without a failing command Allocate refuses if and only if every slot is taken |
| SlotPool.AllocateAccounts | network/pool.go:51-67 | rules on the host stay equal to those of the allocated slots plus the recorded leftovers, over every Allocate |
| SlotPool.ReleaseAccounts | network/pool.go:70-82 | the same over every Release of an allocated slot, leftovers growing by the failed deletions |
| SlotPool.RuleCount | network/iptables.go:6-51 | a slot's rule is present once per allocated slot that has it, plus once per leftover of that very rule |
| SlotPool.RuleOwner | network/types.go:28-42 | which slots have a rule: for forwarding one slot, for masquerading the slots whose IDs agree modulo 16384 |
| SlotPool.RuleMultiplicity | network/iptables.go:6-31 | the rules of a set of slots contain a rule once per slot of the set that has it |
| SlotPool.ReleaseSparesOthers | network/iptables.go:34-51 | a Release takes one copy of another slot's rule exactly when that is a present masquerading rule of a slot with the same address whose deletion succeeds |
| SlotPool.ReleaseLeavesOthersRules | network/iptables.go:34-51 | while the rules are accounted for, releasing a slot leaves every rule of every other allocated slot present |
| SlotPool.LeftoverOwner | network/iptables.go:6-31 | for all slots, exactly which failure of which slot leaves which rule behind |
| SlotPool.AllocateKeepsTaps | network/pool.go:51-67 | if the rollback, when there is one, succeeds, devices are those of the allocated slots after every Allocate |
| SlotPool.ReleaseKeepsTaps | network/pool.go:70-82 | and after every Release |
| VirtualMachine.VM.Start | runtime/firecracker/vm.go:50-108 | for every failing step: running with a live process, or stopped with none; and exactly when the VM directory stays behind |
| VirtualMachine.VM.Stop | runtime/firecracker/vm.go:111-139 | stopped, no process, directory removed unless the removal fails |
| Firecracker.FirecrackerRuntime.Create | runtime/firecracker/firecracker.go:58-123 | succeeds exactly if there is a template, a free slot, and nothing fails; then the machine sits on its slot's device; a failed create leaves the map and the allocated slots as they were and any VM it built stopped |
| Firecracker.DevicesApart | runtime/firecracker/firecracker.go:78-120 | the machines of distinct entries sit on distinct devices |
| Firecracker.FirecrackerRuntime.Destroy | runtime/firecracker/firecracker.go:134-153 | the entry goes, its machine is stopped and its slot released; an unknown ID changes nothing |
| Firecracker.RemoveEntry | runtime/firecracker/firecracker.go:134-153 | removing an entry and its slot keeps the remaining entries separate and, if every slot belonged to an entry, keeps that too |
| VmStore.VMStore.Expired | orchestrator/state.go:61-71 | each entry with an expiry before the time once, and no other |
| VmStore.VMStore.List | orchestrator/state.go:51-59 | every entry once |
| Orchestration.Orchestrator.Create | orchestrator/orchestrator.go:72-136 | when it succeeds, and with what defaults; else store, map and slots change together or not at all; agreement of store and runtime is kept |
| Orchestration.Orchestrator.Delete | orchestrator/orchestrator.go:139-152 | the entry goes from store and runtime and its slot is free, even when the runtime reports an error |
| Orchestration.Orchestrator.Pause | orchestrator/orchestrator.go:155-169 | succeeds if and only if stored, running and known to the runtime; run alone it changes states only |
| Orchestration.Orchestrator.CleanupExpired | orchestrator/cleanup.go:29-37 | whatever fails in each deletion, an entry stays if and only if it has no expiry or the time is not past it; slots in use are those of the survivors and as many as stored entries |
| Orchestration.Lifetime | orchestrator/cleanup.go:29-37 | over Create and any clean-ups: a sandbox made at t with a positive timeout stays up to t plus the timeout and goes in the first clean-up after |
| Orchestration.Orchestrator.Shutdown | orchestrator/cleanup.go:40-47 | from an agreeing state, whatever fails in each deletion, store, map and pool end empty |
| NodeSystem.StepKeepsSafe | runtime/firecracker/firecracker.go:58-153 | every step of every call keeps slot ownership, the issue ledger and the host accounting, with IDs not assumed fresh |
| NodeAgreement.SlotsPartitioned | runtime/firecracker/firecracker.go:68-122 | over every run the allocated set is the disjoint union of the slots of map entries, of calls in flight and of overwritten entries |
| NodeAgreement.ReleaseIsOwned | network/pool.go:70-82 | over every run a slot given back is allocated, is the caller's, and only it is freed |
| NodeAgreement.LedgerBalances | network/pool.go:35-82 | over every run each slot went out as often as it came back, plus one if allocated; every ID handed out is below the peak count |
| NodeAgreement.GrantsBalance | network/pool.go:35-89 | the same by the events of the run: grants, returns, and the largest count at any time |
| NodeAgreement.NoAddressClash | network/types.go:28-42 | while at most 16384 slots were ever live at once, no two slots handed out share an address, a MAC or a device |
| NodeAgreement.SandboxesBounded | runtime/firecracker/firecracker.go:43-122 | over every run map entries plus calls holding a slot stay within the limit |
| NodeHost.RulesAccounted | network/iptables.go:6-51 | over every run a rule is present once per allocated slot that has it, which is its slot alone for forwarding, plus once per step of the run that failed to undo or delete it |
| NodeHost.AllocatedHaveRules | network/iptables.go:6-51 | over every run each allocated slot has its three rules on the host |
| NodeHost.AllocatedReachOut | network/pool.go:19-67 | over every run these are the three rules for the configured interface |
| NodeHost.DevicesAccounted | network/tap.go:9-33 | over every run whose device deletions succeed, devices are those of the allocated slots |
| NodeHost.LeftoversInRun | network/pool.go:51-82 | the recorded leftovers of a rule are the steps that left it behind |
| NodeAgreement.OrphanedByReuseOnly | runtime/firecracker/firecracker.go:118-120 | a slot loses its owner exactly when a sandbox is entered under an ID already in the map |
| NodeAgreement.LostByReuseOnly | runtime/firecracker/firecracker.go:118-120 | over every run a slot is lost if and only if some sandbox was entered over the one that held it |
| NodeAgreement.StoreTracksRuntime | orchestrator/orchestrator.go:72-152 | over every run with unused IDs: what runs is stored or being created; what is stored runs, is being deleted or was put back late |
| NodeAgreement.QuiescentAgreement | orchestrator/orchestrator.go:139-186 | with nothing in flight, store and runtime agree in IDs and counts if and only if every late Put of the run was followed by a Delete of its ID |
| NodeAgreement.RevivedInRun | orchestrator/orchestrator.go:155-186 | an entry is left over exactly when a Put finds its ID unmapped and no later Delete removes it |
| NodeAgreement.AgreementWithoutPause | orchestrator/orchestrator.go:72-152 | in runs of creates, deletes, clean-ups and shutdowns, with nothing in flight, store and runtime hold the same IDs, as many as slots in use and within the limit |
| NodeAgreement.StoreBounded | orchestrator/orchestrator.go:73-127 | the store exceeds the slot limit at most by deletes the runtime has served and by entries put back late; without a late Put by the deletes alone |
| NodeCalls.CreateAlone | orchestrator/orchestrator.go:72-136 | the steps of one undisturbed create do what the method does |
| NodeCalls.DeleteAlone | orchestrator/orchestrator.go:139-152 | the steps of one undisturbed delete do what the method does |
| NodeCalls.LatePauseRevives | orchestrator/orchestrator.go:155-169 | from any state with a running sandbox, a Pause around a complete Delete leaves it stored with nothing behind it |
| NodeCalls.ReuseLosesSlot | runtime/firecracker/firecracker.go:118-120 | a create under a running ID takes the slot from the older sandbox, and no later step returns it |
| NodeCalls.ReuseHappens | runtime/firecracker/firecracker.go:68-120 | every node with room for two has such a run |
| NodeReports.StoreSplits | orchestrator/orchestrator.go:72-152 | over every run with unused IDs the store is, disjointly, what runs and is stored, and what is being deleted or was put back late |
| NodeReports.ReportWithinRoomIff | node/server.go:384-389 | a node's report is within its room if and only if what is gone fits in the room left by what runs; it exceeds it at most by served deletes and late entries |
| NodeReports.ReportExceedsRoom | node/server.go:384-389 | for every limit and every d there is a run without Pause in which d served deletes make the report exceed the room by d |
| CapacitySystem.RacingCreatesBounded | orchestrator/orchestrator.go:73-241 | for any runtime, with at most k creates or restores in flight, stored plus pending entries stay within MaxVMs - 1 + k plus late Puts |
| CapacitySystem.OvershootHappens | orchestrator/orchestrator.go:73-127 | that bound is reached for every limit and every k |
| CapacitySystem.StepIsAct | orchestrator/orchestrator.go:72-186 | every step of the Firecracker node is one act of that system or none |
| CapacitySystem.NodeCreatesBounded | orchestrator/orchestrator.go:73-127 | so the bound holds over every run of the node with at most k creates in flight |
| ControlTables.UsedWithinCapacity | controlplane/db.go:379-383 | rows within their room give 0 <= used <= total |
| ControlTables.SetRow | controlplane/db.go:174-187 | how writing one row moves the two sums over the online rows |
| ControlTables.InsertExtends | controlplane/db.go:213-231 | adding one online row keeps a listing complete, without duplicates and sorted |
| ControlTables.Database.ListOnlineNodes | controlplane/db.go:213-231 | each online row once, sorted by load |
| ControlTables.Database.ListNodes | controlplane/db.go:193-211 | each row once |
| ControlTables.Database.TotalCapacity | controlplane/db.go:379-383 | the two sums over the online rows |
| Scheduler.PickNode | controlplane/handlers.go:30-47 | a least loaded online node with room; "no nodes" and "at capacity" exactly when true |
| Scheduler.AnswersAgree | controlplane/handlers.go:30-47 | that specification fixes the answer and the load chosen |
| Scheduler.OneMore | controlplane/handlers.go:104 | recording one sandbox on a node with room: one more used, the same capacity, rows still in bounds |
| Scheduler.Server.HandleCreateSandbox | controlplane/handlers.go:17-112 | run alone: the answer for every case, and one more used exactly when the count update succeeds |
| Scheduler.Server.HandleProvisionNode | controlplane/handlers.go:261-333 | the new row: provisioning, the requested provider or aws, room 50, no load, the second of the clock; no capacity yet; answers success even if the insert fails |
| Scheduler.Server.HandleNodeRegister | controlplane/handlers.go:337-364 | capacity grows by what the node claims; rows stay in bounds if and only if the claim is not negative |
| Scheduler.Server.HandleNodeHeartbeat | controlplane/handlers.go:366-379 | rows stay in bounds if and only if the reported load is between none and the row's room |
| ScalerRules.TwoPassesMatchOne | controlplane/scaler.go:163-179 | the two-pass choice is the first node of the provider by load, if and only if no negative count hides an empty node |
| ScalerRules.TargetIsLeast | controlplane/scaler.go:157-182 | the choice is a least loaded online node of the provider; none if and only if the provider has no online node |
| ScalerRules.FindTarget | controlplane/scaler.go:163-179 | the two loops compute that choice |
| ScalerRules.NodesAfter | controlplane/scaler.go:65-218 | one pool's evaluation removes only online, empty nodes of the pool's provider |
| ScalerRules.CounterAfter | controlplane/scaler.go:65-218 | it moves only that pool's counter, by at most one, inside its range |
| ScalerRules.BalanceAfter | controlplane/scaler.go:100-218 | rows minus counted nodes are unchanged for every provider, if no pool update or row deletion fails |
| ScalerRules.ClampUnbalances | controlplane/scaler.go:211-215 | stopping a machine keeps the balance if and only if the pool counted at least one |
| ScalerRules.ScanMeaning | controlplane/scaler.go:220-229 | after an atomic scan no online node was silent for over 120 s; none heard from within 119 s and 1 ns, and no row in another status, was changed |
| ScalerRules.ScanMarginIsTight | controlplane/scaler.go:220-229 | one more nanosecond of silence can be declared offline, whatever the row |
| ScalerRules.ReportingNodesStay | node/server.go:371-382 | while every node reports at least every 15 s no scan changes anything |
| ScalerRules.SilentNodeGoes | controlplane/scaler.go:220-229 | a node silent for more than 120 s goes offline in the next scan whose update of it works |
| Scaler.Scaler.EvaluatePool | controlplane/scaler.go:65-218 | the tables after one pool's evaluation, for every failing call; a growth writes a provisioning row of the pool's provider, room 50, no load |
| Scaler.Scaler.DetectOfflineNodes | controlplane/scaler.go:220-229 | exactly the stale online rows go offline |
| Scaler.Scaler.Evaluate | controlplane/scaler.go:50-63 | every counter moves by at most one and inside its range, the balance holds for every provider, and no stale row stays online |
| ControlSystem.StepKeepsTracked | controlplane/handlers.go:30-104 | every step keeps picks and chosen nodes tied to rows of the same room and provider |
| ControlSystem.StepKeepsFresh | controlplane/scaler.go:50-63 | every step keeps the pools not yet looked at as they were read, and the others within one move |
| ControlSystem.RunKeepsSteady | controlplane/scaler.go:50-218 | over every run these invariants hold, and what the scaler decided still stands |
| ControlLaws.BalanceOverRuns | controlplane/scaler.go:100-218 | over every interleaving, rows minus counted nodes move exactly by manual inserts, failed pool updates and failed deletions |
| ControlLaws.ConservationAtRest | controlplane/handlers.go:302-360 | between evaluations of a run without such failures, they differ from the start by the rows added by hand |
| ControlLaws.ConservationByEvents | controlplane/handlers.go:302-360 | the same with the rows added by hand counted from the events of the run |
| ControlLaws.CounterOverRuns | controlplane/scaler.go:150-215 | over every run a counter moves by nodes added less machines stopped, but for failed updates; never clamped, never out of range |
| ControlLaws.OneMovePerEvaluation | controlplane/scaler.go:50-98 | however handlers interleave, one evaluation moves each counter at most once |
| ControlLaws.OnlyEmptyNodesStopped | controlplane/scaler.go:184-209 | over every run, termination only of a node that was empty when listed, whose row is still there and of the pool's provider |
| ControlLaws.BoundsStep | controlplane/handlers.go:104-379 | a step keeps every row and pick within its room if and only if what it reports is plausible |
| ControlLaws.LoadsOverRuns | controlplane/db.go:379-383 | over every run with plausible reports, rows stay within their room and utilisation is a fraction |
| ControlCalls.PoolAlone | controlplane/scaler.go:65-218 | undisturbed, the scaler's steps do to the tables what its code does |
| ControlCalls.CountsExactlyOne | controlplane/handlers.go:37-104 | a create counts one sandbox and keeps the capacity if and only if its node is still online with the load it was picked with |
| ControlCalls.LostCount | controlplane/handlers.go:37-104 | two creates on one snapshot are counted as one, from any state |
| Staleness.RowIsLastReport | controlplane/db.go:233-247 | over every run, as long as a row exists, its load and time are those of the last heartbeat or counted create, or the old ones if there is none |
| Staleness.StoppedNodeEmptyIff | controlplane/scaler.go:158-204 | over every run from the listing to the stop, the stopped machine's row is empty if and only if the last load reported since the listing, if any, is zero |
| Staleness.WaitsIff | controlplane/handlers.go:37-104 | over every run a create waits on a node if and only if it was picked in the run or before and has not been counted or abandoned since |
| Staleness.StoppedNodeIdleIff | controlplane/scaler.go:158-204 | the stopped node has an empty row and no create on its way if and only if the last reported load is zero and every create picked on it is settled |
| Staleness.BusyNodeRemoved | controlplane/scaler.go:158-209 | from a resting scaler and one empty online node: listed, then busy, then removed |
| Staleness.PickedNodeStopped | controlplane/handlers.go:60-104 | from a resting scaler and one empty online node: picked for a create, listed, and about to be stopped with its row empty and nothing reported |
| Staleness.VerdictRightIff | controlplane/scaler.go:220-229 | when an interleaved scan reaches a row it found stale, the offline verdict is right if and only if the last report since the listing, if any, is out of date too |
| Staleness.VerdictRightIffSilent | controlplane/scaler.go:220-229 | with a clock that does not run backwards, if and only if the node was not heard from since the listing |
| Staleness.InterleavedScan | controlplane/scaler.go:220-229 | a finished interleaved scan treats each row not written meanwhile, and whose own update did not fail, as the atomic scan does, with the same bounds of 120 s and of 119 s and 1 ns |
| Staleness.RecentReportSpared | node/server.go:371-382 | a node heard from within 15 s when a scan lists it is never declared offline by it, whatever steps in between |
| Staleness.ProvisioningIff | controlplane/scaler.go:130-148 | over every run a row is provisioning if and only if a request or the scaler wrote it and no report, scaler status, scan or deletion has touched it since |
| Staleness.DrainingEndsIff | controlplane/scaler.go:187-202 | exactly which steps end a row's draining; a report puts it online |
| Staleness.HeardButOffline | controlplane/scaler.go:220-229 | from a resting scaler and any stale online row: listed, heard from, and declared offline all the same |
| Hysteresis.GrowthStaysAboveLow | controlplane/scaler.go:88-98 | over all settled tables, k nodes joining after an overload cannot push utilisation below 30 % if and only if the total before was at least 30k (or there was no node) |
| Hysteresis.ShrinkingStaysBelowHigh | controlplane/scaler.go:88-98 | terminating an empty node below 30 % cannot push utilisation above 80 % |
| Hysteresis.RoundLaw | controlplane/scaler.go:65-218 | what a round of evaluation and settling can do to rows and counter |
| Hysteresis.NeverTurns | controlplane/scaler.go:65-218 | over every run of rounds under constant load the counter never both rises and falls, and changes at most max - min times |
| PoolTurns.TurnLaw | controlplane/scaler.go:65-218 | what one pool's turn can do to capacity, load, rows and counter in the middle of a round, and what holds when the counter moves |
| PoolRounds.HighRound | controlplane/scaler.go:50-63 | at 30 % or above counters only rise in a round of any pools, and only above 80 %; the next round is there again if the capacity was 30 per pool or no counter rose |
| PoolRounds.LowRound | controlplane/scaler.go:50-63 | at or below 80 % counters only fall in any round, busy drains included; the next round is there again if no busy node was drained or no counter fell |
| PoolRounds.RiseIff | controlplane/scaler.go:88-91 | a round can raise a counter if and only if it starts above 80 % and the pool, of a known provider, is below its maximum |
| PoolRounds.FallIff | controlplane/scaler.go:94-97 | a round can lower a counter if and only if it starts below 30 %, the pool, of a known provider, is above its minimum and the provider has an empty node |
| PoolRounds.CountersFollowLoad | controlplane/scaler.go:50-98 | over every run of any rounds a counter rises only in rounds that start above 80 % and falls only in rounds that start below 30 %; none rises while all start at or below 80 %, none falls while all start at or above 30 % |
| PoolRounds.PoolsNeverTurn | controlplane/scaler.go:50-98 | counters never both rise and fall if a lowering round drains no busy node and a raising round starts with capacity for 30 per pool |
| PoolRounds.SinglePoolIsGentle | controlplane/scaler.go:50-98 | every run with one pool to a round is of that kind |
| PoolRounds.ChangesBounded | controlplane/scaler.go:65-98 | over a run in which none rises or none falls, each counter moves in at most max - min rounds |
| PoolReversal.BusyDrainTurns | controlplane/scaler.go:171-193 | with a busy drain they can turn: a run of two rounds in which one counter falls and then rises |

## Left out

- HTTP, JSON, authentication, event streams, agent proxying, logging, the CLI, the SDK, the UI and the template builder: I/O or one-branch logic.
- The Docker runtime; the orchestrator's count check is proved for every runtime in `CapacitySystem`.
- Restore on Firecracker always fails; it appears as a create of the general system only. Snapshots are files outside the model.
- Agreement between control-plane and node sandbox IDs: the node decodes the requested ID and drops it, so there is none.
- A registered node becoming its provisioned row: registration inserts a fresh row, so a provisioned row goes online through a heartbeat with its ID only.
- A create whose count update fails counts as abandoned; its sandbox shows at the node's next report only.
- Whether a VM process outlives its start: it is tied to the caller's context, and a process that dies by itself is not modelled.
- The node handlers that set a sandbox's state without the runtime.
- The sandbox table beyond the row a create inserts; deletes and pauses through the control plane never touch node rows.
- Names, addresses, regions and instance types of nodes and pools, which no decision reads.
- Creation of pools: no code in the repository writes one; they are part of the initial tables.
- Orchestration.Orchestrator.Pause: run alone, so its trailing Put finds the entry; the race is in NodeAgreement and NodeCalls.
- Scaler.Scaler.Evaluate: the balance clause assumes that drawn IDs are new and that no pool update or deletion fails; the failing cases are counted in ControlLaws.BalanceOverRuns.
- NodeAgreement.StoreTracksRuntime: assumes new sandbox IDs, which the code draws from 32 random bits; slot safety does not assume it.
- Hysteresis.NeverTurns: one pool, rooms of 50 and no failing pool update or row deletion, with every row reporting in between evaluations.
- PoolRounds.CountersFollowLoad: the same but for any number of pools.
