/** Snapshots against the rows they were taken from: what the last report of a node says about its row, when
    the scaler's verdicts on a listing are right, and the schedules in which they are wrong. */
module Staleness {
  import opened Wrappers
  import opened ControlTables
  import opened Scheduler
  import opened ScalerRules
  import opened ControlSystem
  import opened ControlCalls

  /** What a heartbeat or the count of a create writes: the load, and the second. */
  datatype Report = Report(running: int, lastSeen: int)

  function ReportOf(row: NodeRow): Report { Report(row.running, row.lastSeen) }

  /** The step is a heartbeat of the node, or a create counted on it. */
  predicate Writes(c: Control, e: Event, id: NodeId) {
    match e
    case Heartbeat(i, _, _) => i == id
    case CountFor(r, _) => r in c.picks && c.picks[r].id == id
    case _ => false
  }

  function Written(c: Control, e: Event): Report
    requires e.Heartbeat? || (e.CountFor? && e.request in c.picks)
  {
    if e.Heartbeat? then Report(e.running, Seconds(e.now))
    else Report(c.picks[e.request].row.running + 1, Seconds(e.now))
  }

  /** The last report a run writes for a node, or `r` if it writes none. */
  ghost function LastReport(c: Control, es: seq<Event>, id: NodeId, r: Report): Report
    requires IsRun(c, es)
    decreases |es|
  {
    if es == [] then r
    else LastReport(Apply(c, es[0]), es[1..], id, if Writes(c, es[0], id) then Written(c, es[0]) else r)
  }

  ghost predicate Unwritten(c: Control, es: seq<Event>, id: NodeId)
    requires IsRun(c, es)
    decreases |es|
  {
    es == [] || (!Writes(c, es[0], id) && Unwritten(Apply(c, es[0]), es[1..], id))
  }

  lemma ReportStep(c: Control, e: Event, id: NodeId)
    requires c.nodes.Keys <= c.drawn && Enabled(c, e) && id in c.nodes && id in NextNodes(c, e)
    ensures ReportOf(NextNodes(c, e)[id]) == if Writes(c, e, id) then Written(c, e) else ReportOf(c.nodes[id])
  {
    hide Capacity, Used, Target, OnlineListing, Answers;
  }

  lemma {:induction false} GoneForGood(c: Control, es: seq<Event>, id: NodeId)
    requires Tracked(c) && IsRun(c, es) && id in c.drawn && id !in c.nodes
    ensures id !in Final(c, es).nodes
    decreases |es|
  {
    hide Enabled, NextNodes, NextPools, NextPhase, NextLedger, NextPicks, NextDrawn;
    if es != [] {
      StepKeepsTracked(c, es[0]);
      RowsKeepIdentity(c, es[0]);
      GoneForGood(Apply(c, es[0]), es[1..], id);
    }
  }

  /** As long as a row exists, its load and time are those of the last report written for it. */
  lemma {:induction false} RowIsLastReport(c: Control, es: seq<Event>, id: NodeId)
    requires Tracked(c) && IsRun(c, es) && id in c.nodes && id in Final(c, es).nodes
    ensures ReportOf(Final(c, es).nodes[id]) == LastReport(c, es, id, ReportOf(c.nodes[id]))
    decreases |es|
  {
    hide Enabled, NextNodes, NextPools, NextPhase, NextLedger, NextPicks, NextDrawn, Writes, Written, ReportOf;
    if es != [] {
      var d := Apply(c, es[0]);
      StepKeepsTracked(c, es[0]);
      RowsKeepIdentity(c, es[0]);
      if id !in d.nodes {
        GoneForGood(d, es[1..], id);
      }
      ReportStep(c, es[0], id);
      RowIsLastReport(d, es[1..], id);
    }
  }

  lemma {:induction false} UnwrittenKeeps(c: Control, es: seq<Event>, id: NodeId, r: Report)
    requires IsRun(c, es) && Unwritten(c, es, id)
    ensures LastReport(c, es, id, r) == r
    decreases |es|
  {
    hide Enabled, NextNodes, NextPools, NextPhase, NextLedger, NextPicks, NextDrawn, Writes, Written;
    if es != [] {
      UnwrittenKeeps(Apply(c, es[0]), es[1..], id, r);
    }
  }

  // ----- creates in flight

  predicate PicksOn(e: Event, r: RequestId, id: NodeId) {
    e.PickFor? && e.request == r && e.target.id == id
  }

  /** The create is over: counted, or given up because the node or the count update failed. */
  predicate Settles(e: Event, r: RequestId) {
    (e.CountFor? || e.Abandon?) && e.request == r
  }

  predicate SettledIn(es: seq<Event>, r: RequestId) {
    exists i :: 0 <= i < |es| && Settles(es[i], r)
  }

  /** Some step picks the node for the request, and no later step settles it. */
  ghost predicate PickedAndOpen(es: seq<Event>, r: RequestId, id: NodeId)
    decreases |es|
  {
    es != [] && ((PicksOn(es[0], r, id) && !SettledIn(es[1..], r)) || PickedAndOpen(es[1..], r, id))
  }

  ghost predicate WaitsOn(c: Control, r: RequestId, id: NodeId) {
    r in c.picks && c.picks[r].id == id
  }

  /** A create waits on the node exactly if it was picked in the run, or before it, and not settled since. */
  lemma {:induction false} WaitsIff(c: Control, es: seq<Event>, r: RequestId, id: NodeId)
    requires IsRun(c, es)
    ensures WaitsOn(Final(c, es), r, id)
      <==> PickedAndOpen(es, r, id) || (WaitsOn(c, r, id) && !SettledIn(es, r))
    decreases |es|
  {
    hide Enabled, NextNodes, NextPools, NextPhase, NextLedger, NextDrawn, SettledIn;
    if es == [] {
      SettledInStep(es, r);
    } else {
      WaitsStep(c, es[0], r, id);
      WaitsIff(Apply(c, es[0]), es[1..], r, id);
      SettledInStep(es, r);
    }
  }

  lemma WaitsStep(c: Control, e: Event, r: RequestId, id: NodeId)
    requires Enabled(c, e)
    ensures WaitsOn(Apply(c, e), r, id) <==> PicksOn(e, r, id) || (WaitsOn(c, r, id) && !Settles(e, r))
  {
    hide NextNodes, NextPools, NextPhase, NextLedger, NextDrawn, Answers, OnlineListing;
  }

  lemma SettledInStep(es: seq<Event>, r: RequestId)
    ensures SettledIn(es, r) <==> es != [] && (Settles(es[0], r) || SettledIn(es[1..], r))
  {
    if es != [] {
      if SettledIn(es[1..], r) {
        var i :| 0 <= i < |es[1..]| && Settles(es[1..][i], r);
        assert Settles(es[i + 1], r);
      }
      if SettledIn(es, r) && !Settles(es[0], r) {
        var i :| 0 <= i < |es| && Settles(es[i], r);
        assert Settles(es[1..][i - 1], r);
      }
    }
  }

  // ----- is the machine being stopped idle?

  /** No sandbox by its row, and no create on its way to it. */
  ghost predicate Idle(c: Control, id: NodeId) {
    id in c.nodes && c.nodes[id].running == 0 && forall r: RequestId :: !WaitsOn(c, r, id)
  }

  /** Every create picked on the node, in the run or before it, has been counted or abandoned by its end. */
  ghost predicate AllSettled(c: Control, es: seq<Event>, id: NodeId) {
    && (forall r: RequestId :: !PickedAndOpen(es, r, id))
    && (forall r: RequestId :: WaitsOn(c, r, id) ==> SettledIn(es, r))
  }

  predicate NoSelect(es: seq<Event>) {
    forall i :: 0 <= i < |es| ==> !es[i].Select?
  }

  lemma TargetStep(c: Control, e: Event)
    requires Enabled(c, e) && !e.Select? && HasTarget(NextPhase(c, e))
    ensures HasTarget(c.phase) && c.phase.target == NextPhase(c, e).target
  {
    hide Capacity, Used, Target, OnlineListing, Answers;
  }

  lemma {:induction false} TargetStays(c: Control, es: seq<Event>)
    requires IsRun(c, es) && NoSelect(es) && HasTarget(Final(c, es).phase)
    ensures HasTarget(c.phase) && c.phase.target == Final(c, es).phase.target
    decreases |es|
  {
    hide Enabled, NextNodes, NextPools, NextPhase, NextLedger, NextPicks, NextDrawn, HasTarget;
    if es != [] {
      assert !es[0].Select?;
      TargetStays(Apply(c, es[0]), es[1..]);
      TargetStep(c, es[0]);
    }
  }

  /** When the scaler is about to stop a machine, its row is empty if and only if the last load reported
      since the listing, if any, is zero: the run after the listing decides, not the listing. */
  lemma StoppedNodeEmptyIff(c: Control, list: seq<Snapshot>, es: seq<Event>)
    requires Tracked(c) && Decided(c) && Enabled(c, Select(true, list))
    requires IsRun(c, [Select(true, list)] + es) && NoSelect(es)
    requires Final(c, [Select(true, list)] + es).phase.Stopping?
    ensures var listed, d := Apply(c, Select(true, list)), Final(c, [Select(true, list)] + es);
      var id := d.phase.target.id;
      && IsRun(listed, es) && id in d.nodes
      && (d.nodes[id].running == 0 <==> LastReport(listed, es, id, Report(0, 0)).running == 0)
  {
    hide IsRun, Final, OnlineListing, NextPools, NextPicks, NextDrawn, NextLedger, Target;
    var select := Select(true, list);
    var listed, d := Apply(c, select), Final(c, [select] + es);
    Behead(c, select, es);
    StepKeepsTracked(c, select);
    StepKeepsDecided(c, select);
    TargetStays(listed, es);
    RunKeepsTracked(listed, es);
    var id := d.phase.target.id;
    TargetListed(list, c.nodes, c.phase.s.pool.provider);
    assert listed.phase.target.row == listed.nodes[id];
    RowIsLastReport(listed, es, id);
    EmptyTarget(listed, es);
    SameLoad(listed, es, id, ReportOf(listed.nodes[id]), Report(0, 0));
  }

  /** And it is idle if and only if, moreover, every create picked on it before or after the listing is settled. */
  lemma StoppedNodeIdleIff(c: Control, list: seq<Snapshot>, es: seq<Event>)
    requires Tracked(c) && Decided(c) && Enabled(c, Select(true, list))
    requires IsRun(c, [Select(true, list)] + es) && NoSelect(es)
    requires Final(c, [Select(true, list)] + es).phase.Stopping?
    ensures var listed, d := Apply(c, Select(true, list)), Final(c, [Select(true, list)] + es);
      var id := d.phase.target.id;
      && IsRun(listed, es)
      && (Idle(d, id) <==> LastReport(listed, es, id, Report(0, 0)).running == 0 && AllSettled(c, es, id))
  {
    hide IsRun, Final, Enabled, OnlineListing, NextNodes, NextPhase, NextPools, NextDrawn, NextLedger, Target,
      LastReport, Tracked, Decided, WaitsOn, PickedAndOpen, SettledIn;
    StoppedNodeEmptyIff(c, list, es);
    Behead(c, Select(true, list), es);
    var listed, d := Apply(c, Select(true, list)), Final(c, [Select(true, list)] + es);
    var id := d.phase.target.id;
    forall r: RequestId
      ensures WaitsOn(listed, r, id) <==> WaitsOn(c, r, id)
      ensures WaitsOn(d, r, id) <==> PickedAndOpen(es, r, id) || (WaitsOn(c, r, id) && !SettledIn(es, r))
    {
      SamePicks(c, listed, r, id);
      WaitsIff(listed, es, r, id);
    }
  }

  lemma SamePicks(c: Control, d: Control, r: RequestId, id: NodeId)
    requires c.picks == d.picks
    ensures WaitsOn(c, r, id) <==> WaitsOn(d, r, id)
  {
  }

  lemma Behead(c: Control, e: Event, rest: seq<Event>)
    requires IsRun(c, [e] + rest)
    ensures Enabled(c, e) && IsRun(Apply(c, e), rest)
    ensures Final(c, [e] + rest) == Final(Apply(c, e), rest)
  {
    hide Enabled, NextNodes, NextPools, NextPhase, NextLedger, NextPicks, NextDrawn;
    assert ([e] + rest)[1..] == rest;
  }

  lemma {:induction false} RunKeepsTracked(c: Control, es: seq<Event>)
    requires Tracked(c) && Decided(c) && IsRun(c, es)
    ensures Tracked(Final(c, es)) && Decided(Final(c, es))
    decreases |es|
  {
    hide Tracked, Decided, Enabled, NextNodes, NextPools, NextPhase, NextLedger, NextPicks, NextDrawn;
    if es != [] {
      StepKeepsTracked(c, es[0]);
      StepKeepsDecided(c, es[0]);
      RunKeepsTracked(Apply(c, es[0]), es[1..]);
    }
  }

  lemma EmptyTarget(c: Control, es: seq<Event>)
    requires Tracked(c) && Decided(c) && IsRun(c, es) && Final(c, es).phase.Stopping?
    ensures Final(c, es).phase.target.row.running == 0
  {
    hide IsRun, Final, Tracked;
    RunKeepsTracked(c, es);
  }

  lemma {:induction false} SameLoad(c: Control, es: seq<Event>, id: NodeId, r: Report, q: Report)
    requires IsRun(c, es) && r.running == q.running
    ensures LastReport(c, es, id, r).running == LastReport(c, es, id, q).running
    decreases |es|
  {
    hide NextNodes, NextPools, NextPhase, NextLedger, NextPicks, NextDrawn;
    if es != [] {
      var r', q' := r, q;
      if Writes(c, es[0], id) {
        r', q' := Written(c, es[0]), Written(c, es[0]);
      }
      SameLoad(Apply(c, es[0]), es[1..], id, r', q');
    }
  }

  // ----- is the node declared offline silent?

  predicate NoLook(es: seq<Event>) {
    forall i :: 0 <= i < |es| ==> !es[i].Look?
  }

  lemma ScanStep(c: Control, e: Event)
    requires Enabled(c, e) && !e.Look? && NextPhase(c, e).Scanning?
    ensures c.phase.Scanning? && c.phase.now == NextPhase(c, e).now && c.nodes.Keys <= NextNodes(c, e).Keys
    ensures e.Scan? ==> e.node in c.phase.unseen
    ensures NextPhase(c, e).unseen == if e.Scan? then c.phase.unseen - {e.node} else c.phase.unseen
  {
    hide Capacity, Used, Target, OnlineListing, Answers;
  }

  lemma {:induction false} ScanStays(c: Control, es: seq<Event>)
    requires IsRun(c, es) && NoLook(es) && Final(c, es).phase.Scanning?
    ensures var d := Final(c, es);
      && c.phase.Scanning? && d.phase.now == c.phase.now && c.nodes.Keys <= d.nodes.Keys
      && d.phase.unseen.Keys <= c.phase.unseen.Keys
      && forall id :: id in d.phase.unseen ==> d.phase.unseen[id] == c.phase.unseen[id]
    decreases |es|
  {
    hide Enabled, NextNodes, NextPools, NextPhase, NextLedger, NextPicks, NextDrawn;
    if es != [] {
      assert !es[0].Look?;
      ScanStays(Apply(c, es[0]), es[1..]);
      ScanStep(c, es[0]);
    }
  }

  /** A time that is out of date for a scan reading the clock at `now`. */
  predicate OutOfDate(lastSeen: int, now: int) { lastSeen * 1_000_000_000 < now - 120_000_000_000 }

  /** When the scan comes to a row it found stale, declaring the node offline is right if and only if the last
      report since the listing, if any, is out of date too. */
  lemma VerdictRightIff(c: Control, now: int, es: seq<Event>, id: NodeId)
    requires Tracked(c) && Enabled(c, Look(true, now)) && id in c.nodes && Stale(c.nodes[id], now)
    requires IsRun(c, [Look(true, now)] + es) && NoLook(es)
    requires Enabled(Final(c, [Look(true, now)] + es), Scan(id, true))
    ensures var listed, d := Apply(c, Look(true, now)), Final(c, [Look(true, now)] + es);
      && IsRun(listed, es) && id in d.nodes
      && NextNodes(d, Scan(id, true)) == WithStatus(d.nodes, id, Offline)
      && (OutOfDate(d.nodes[id].lastSeen, now)
          <==> OutOfDate(LastReport(listed, es, id, ReportOf(c.nodes[id])).lastSeen, now))
      && (Unwritten(listed, es, id) ==> OutOfDate(d.nodes[id].lastSeen, now))
  {
    hide IsRun, Final, NextPools, NextPicks, NextDrawn, NextLedger, OutOfDate, LastReport, Unwritten, WithStatus;
    var look := Look(true, now);
    var listed, d := Apply(c, look), Final(c, [look] + es);
    Behead(c, look, es);
    StepKeepsTracked(c, look);
    ScanStays(listed, es);
    RowIsLastReport(listed, es, id);
    StaleIsOutOfDate(c.nodes[id], now);
    if Unwritten(listed, es, id) {
      UnwrittenKeeps(listed, es, id, ReportOf(c.nodes[id]));
    }
  }

  lemma StaleIsOutOfDate(row: NodeRow, now: int)
    requires Stale(row, now)
    ensures OutOfDate(row.lastSeen, now)
  {
  }

  /** Every report of a run is written at `now` or later. */
  predicate ReportsAfter(es: seq<Event>, now: int) {
    forall i :: 0 <= i < |es| ==>
      (es[i].Heartbeat? ==> es[i].now >= now) && (es[i].CountFor? ==> es[i].now >= now)
  }

  /** With a clock that does not run backwards: right if and only if the node has not been heard from since. */
  lemma VerdictRightIffSilent(c: Control, now: int, es: seq<Event>, id: NodeId)
    requires Tracked(c) && Enabled(c, Look(true, now)) && id in c.nodes && Stale(c.nodes[id], now)
    requires IsRun(c, [Look(true, now)] + es) && NoLook(es) && ReportsAfter(es, now)
    requires Enabled(Final(c, [Look(true, now)] + es), Scan(id, true))
    ensures var listed, d := Apply(c, Look(true, now)), Final(c, [Look(true, now)] + es);
      && IsRun(listed, es) && id in d.nodes
      && (OutOfDate(d.nodes[id].lastSeen, now) <==> Unwritten(listed, es, id))
  {
    hide IsRun, Final, NextNodes, NextPools, NextPhase, NextPicks, NextDrawn, NextLedger, OutOfDate, LastReport,
      Unwritten, Tracked, Enabled;
    VerdictRightIff(c, now, es, id);
    Behead(c, Look(true, now), es);
    var listed := Apply(c, Look(true, now));
    if !Unwritten(listed, es, id) {
      WrittenIsUpToDate(listed, es, id, ReportOf(c.nodes[id]), now);
    }
  }

  lemma {:induction false} WrittenIsUpToDate(c: Control, es: seq<Event>, id: NodeId, r: Report, now: int)
    requires IsRun(c, es) && ReportsAfter(es, now)
    requires !Unwritten(c, es, id) || !OutOfDate(r.lastSeen, now)
    ensures !OutOfDate(LastReport(c, es, id, r).lastSeen, now)
    decreases |es|
  {
    hide Enabled, NextNodes, NextPools, NextPhase, NextLedger, NextPicks, NextDrawn;
    if es != [] {
      assert es[0] in es;
      assert es[1..] == es[1..] && ReportsAfter(es[1..], now);
      var q := if Writes(c, es[0], id) then Written(c, es[0]) else r;
      WrittenIsUpToDate(Apply(c, es[0]), es[1..], id, q, now);
    }
  }

  /** The scan's status update of this row does not fail. */
  predicate ScannedOk(es: seq<Event>, id: NodeId) {
    forall i :: 0 <= i < |es| ==> es[i] != Scan(id, false)
  }

  lemma QuietRowStep(c: Control, e: Event, id: NodeId)
    requires c.nodes.Keys <= c.drawn && Enabled(c, e) && c.phase.Scanning? && id in c.nodes && !Writes(c, e, id)
    requires e != Scan(id, false)
    ensures id in NextNodes(c, e)
    ensures NextNodes(c, e)[id] ==
      if e.Scan? && e.node == id && Stale(c.phase.unseen[id], c.phase.now) then c.nodes[id].(status := Offline)
      else c.nodes[id]
  {
    hide Capacity, Used, Target, OnlineListing, Answers, Stale;
  }

  /** The scan treats a row that nobody writes meanwhile as its listing says. */
  lemma {:induction false} QuietRow(c: Control, es: seq<Event>, id: NodeId)
    requires Tracked(c) && IsRun(c, es) && NoLook(es) && ScannedOk(es, id) && Final(c, es).phase.Scanning?
    requires id in c.nodes && Unwritten(c, es, id)
    ensures var d := Final(c, es);
      && c.phase.Scanning? && id in d.nodes
      && d.nodes[id] ==
        if id in c.phase.unseen && id !in d.phase.unseen && Stale(c.phase.unseen[id], c.phase.now)
        then c.nodes[id].(status := Offline) else c.nodes[id]
    decreases |es|
  {
    hide Enabled, NextNodes, NextPools, NextPhase, NextLedger, NextPicks, NextDrawn, Writes, Stale, Tracked;
    ScanStays(c, es);
    if es != [] {
      assert !es[0].Look? && es[0] != Scan(id, false);
      var d := Apply(c, es[0]);
      StepKeepsTracked(c, es[0]);
      DrawnOnly(c);
      QuietRowStep(c, es[0], id);
      ScanStays(d, es[1..]);
      ScanStep(c, es[0]);
      QuietRow(d, es[1..], id);
    }
  }

  lemma DrawnOnly(c: Control)
    requires Tracked(c)
    ensures c.nodes.Keys <= c.drawn
  {
  }

  /** However it is interleaved, a finished scan has done to every row not written meanwhile what the atomic scan
      does: none left online has been silent for more than 120 s, and none heard from within 119 s and 1 ns or
      in another status is changed. */
  lemma InterleavedScan(c: Control, now: int, es: seq<Event>, id: NodeId, heard: int)
    requires Tracked(c) && Enabled(c, Look(true, now)) && id in c.nodes
    requires IsRun(c, [Look(true, now)] + es) && NoLook(es) && ScannedOk(es, id)
    requires Enabled(Final(c, [Look(true, now)] + es), Rest)
    requires IsRun(Apply(c, Look(true, now)), es) && Unwritten(Apply(c, Look(true, now)), es, id)
    requires c.nodes[id].lastSeen == Seconds(heard)
    ensures var d := Final(c, [Look(true, now)] + es);
      && id in d.nodes
      && d.nodes[id] == Scanned(c.nodes, now, {})[id]
      && (d.nodes[id].status == Online ==> now - heard <= 120_000_000_000)
      && (now - heard <= 119_000_000_001 || c.nodes[id].status != Online ==> d.nodes[id] == c.nodes[id])
  {
    hide IsRun, Final, NextPools, NextPicks, NextDrawn, NextLedger, Unwritten, Tracked, Seconds;
    var look := Look(true, now);
    Behead(c, look, es);
    StepKeepsTracked(c, look);
    QuietRow(Apply(c, look), es, id);
    OneRow(c.nodes[id], heard, now);
  }

  lemma OneRow(row: NodeRow, heard: int, now: int)
    requires row.lastSeen == Seconds(heard)
    ensures row.status == Online && !Stale(row, now) ==> now - heard <= 120_000_000_000
    ensures now - heard <= 119_000_000_001 ==> !Stale(row, now)
  {
    assert heard - SECOND < row.lastSeen * SECOND <= heard;
  }

  /** A node heard from within the last 15 s, its reporting period, when the scan lists it is never declared
      offline by that scan, whatever steps in between. */
  lemma RecentReportSpared(c: Control, now: int, es: seq<Event>, id: NodeId, heard: int, ok: bool)
    requires Enabled(c, Look(true, now)) && id in c.nodes
    requires c.nodes[id].lastSeen == Seconds(heard) && now - heard <= 15_000_000_000
    requires IsRun(c, [Look(true, now)] + es) && NoLook(es)
    requires Enabled(Final(c, [Look(true, now)] + es), Scan(id, ok))
    ensures var d := Final(c, [Look(true, now)] + es); NextNodes(d, Scan(id, ok)) == d.nodes
  {
    hide IsRun, Final, NextPools, NextPicks, NextDrawn, NextLedger, Stale, Seconds;
    Behead(c, Look(true, now), es);
    ScanStays(Apply(c, Look(true, now)), es);
    OneRow(c.nodes[id], heard, now);
  }

  // ----- how a provisioning row ends

  /** The step writes the row of a machine just provisioned. */
  predicate Makes(e: Event, id: NodeId) {
    (e.Provision? && e.newId == id) || (e.Insert? && e.ok && e.newId == id)
  }

  /** A report of the node, a status the scaler gives it, a scan that had listed it online, or its deletion. */
  predicate Touches(c: Control, e: Event, id: NodeId) {
    || Writes(c, e, id)
    || ((e.Drain? || e.Mark? || e.Delete?) && e.ok && HasTarget(c.phase) && c.phase.target.id == id)
    || (e.Scan? && e.ok && e.node == id && c.phase.Scanning? && id in c.phase.unseen
        && Stale(c.phase.unseen[id], c.phase.now))
  }

  ghost predicate Untouched(c: Control, es: seq<Event>, id: NodeId)
    requires IsRun(c, es)
    decreases |es|
  {
    es == [] || (!Touches(c, es[0], id) && Untouched(Apply(c, es[0]), es[1..], id))
  }

  /** Some step of the run provisions the node, and none touches it afterwards. */
  ghost predicate MadeAndUntouched(c: Control, es: seq<Event>, id: NodeId)
    requires IsRun(c, es)
    decreases |es|
  {
    es != [] &&
    ((Makes(es[0], id) && Untouched(Apply(c, es[0]), es[1..], id)) || MadeAndUntouched(Apply(c, es[0]), es[1..], id))
  }

  ghost predicate IsProvisioning(c: Control, id: NodeId) { id in c.nodes && c.nodes[id].status == Provisioning }

  lemma ProvisioningStep(c: Control, e: Event, id: NodeId)
    requires c.nodes.Keys <= c.drawn && Enabled(c, e)
    ensures IsProvisioning(Apply(c, e), id) <==> Makes(e, id) || (IsProvisioning(c, id) && !Touches(c, e, id))
  {
    hide NextPools, NextPhase, NextPicks, NextDrawn, NextLedger, Target, OnlineListing, Answers, Stale, Seconds;
  }

  /** Over every run a row is provisioning if and only if a provisioning request or the scaler wrote it, in the run
      or before, and nothing has touched it since. */
  lemma {:induction false} ProvisioningIff(c: Control, es: seq<Event>, id: NodeId)
    requires Tracked(c) && IsRun(c, es)
    ensures IsProvisioning(Final(c, es), id)
      <==> MadeAndUntouched(c, es, id) || (IsProvisioning(c, id) && Untouched(c, es, id))
    decreases |es|
  {
    hide Enabled, NextNodes, NextPools, NextPhase, NextLedger, NextPicks, NextDrawn, Tracked, IsProvisioning, Makes,
      Touches;
    if es != [] {
      DrawnOnly(c);
      ProvisioningStep(c, es[0], id);
      StepKeepsTracked(c, es[0]);
      ProvisioningIff(Apply(c, es[0]), es[1..], id);
    }
  }

  // ----- how a draining row ends

  /** A row stops draining exactly with a report of its node, the next status the scaler gives it, a scan that
      had listed it online, or its deletion; nothing waits for it to run empty. */
  lemma DrainingEndsIff(c: Control, e: Event, id: NodeId)
    requires Tracked(c) && Enabled(c, e) && id in c.nodes && c.nodes[id].status == Draining
    ensures var after := NextNodes(c, e);
      (id in after && after[id].status == Draining) <==>
        && !Writes(c, e, id)
        && !(e.Mark? && e.ok && c.phase.target.id == id)
        && !(e.Delete? && e.ok && c.phase.target.id == id)
        && !(e.Scan? && e.ok && e.node == id && Stale(c.phase.unseen[id], c.phase.now))
    ensures Writes(c, e, id) ==> id in NextNodes(c, e) && NextNodes(c, e)[id].status == Online
  {
    hide Capacity, Used, Target, OnlineListing, Answers, Stale;
  }

  // ----- schedules

  const END := [Mark(true)] + ([Stop(true)] + [Delete(true)])

  lemma EndRemoves(c: Control)
    requires c.phase.Marking?
    ensures IsRun(c, END) && c.phase.target.id !in Final(c, END).nodes
  {
    var c1 := Apply(c, Mark(true));
    var c2 := Apply(c1, Stop(true));
    Single(c2, Delete(true));
    Prepend(c1, Stop(true), [Delete(true)]);
    Prepend(c, Mark(true), [Stop(true)] + [Delete(true)]);
  }

  lemma ReportThenEnd(c: Control, running: int, now: int)
    requires c.phase.Emptying? && c.phase.target.row.running == 0 && c.phase.target.row.provider in c.known
    requires c.phase.target.id in c.nodes
    ensures var id, report := c.phase.target.id, Heartbeat(c.phase.target.id, running, now);
      && IsRun(c, [report]) && id in Final(c, [report]).nodes && Final(c, [report]).nodes[id].running == running
      && IsRun(c, [report] + ([Drain(true)] + END))
      && id !in Final(c, [report] + ([Drain(true)] + END)).nodes
  {
    hide END, IsRun, Final;
    var report := Heartbeat(c.phase.target.id, running, now);
    var c1 := Apply(c, report);
    var c2 := Apply(c1, Drain(true));
    EndRemoves(c2);
    Single(c, report);
    Prepend(c1, Drain(true), END);
    Prepend(c, report, [Drain(true)] + END);
  }

  /** From a resting state with a single, empty online node: it is listed, reports sandboxes, and is stopped and
      removed all the same. */
  lemma BusyNodeRemoved(c: Control, pool: PoolId, id: NodeId, running: int, now: int)
    requires c.phase == Resting && c.nodes.Keys == {id} && running > 0
    requires c.nodes[id].status == Online && c.nodes[id].running == 0
    requires pool in c.pools && c.pools[pool].provider == c.nodes[id].provider && c.pools[pool].provider in c.known
    requires c.pools[pool].current > c.pools[pool].min
    ensures exists first, last ::
      && IsRun(c, first) && id in Final(c, first).nodes && Final(c, first).nodes[id].running == running
      && IsRun(c, first + last) && id !in Final(c, first + last).nodes
  {
    hide END, OnlineListing, Target, Capacity, Used, Enabled, Apply, IsRun, Final;
    var list := [Snapshot(id, c.nodes[id])];
    SingleListing(c.nodes, id, list);
    ListedAlone(c, pool, id, list);
    var listed := Apply(Apply(Apply(c, Evaluate), Choose(pool, true)), Select(true, list));
    var report := Heartbeat(id, running, now);
    var rest := [Drain(true)] + END;
    ReportThenEnd(listed, running, now);
    Onto(c, pool, list, [report]);
    Onto(c, pool, list, [report] + rest);
    var first := UntilListed(pool, list) + [report];
    assert first + rest == UntilListed(pool, list) + ([report] + rest);
  }

  lemma ListedAlone(c: Control, pool: PoolId, id: NodeId, list: seq<Snapshot>)
    requires c.phase == Resting && id in c.nodes && pool in c.pools
    requires WantsDown(Capacity(c.nodes), Used(c.nodes), c.pools[pool])
    requires !WantsUp(Capacity(c.nodes), Used(c.nodes), c.pools[pool])
    requires OnlineListing(list, c.nodes) && |list| > 0 && list[0] == Snapshot(id, c.nodes[id])
    requires Target(list, c.pools[pool].provider) == Some(list[0])
    ensures Enabled(c, Evaluate) && Enabled(Apply(c, Evaluate), Choose(pool, true))
    ensures Enabled(Apply(Apply(c, Evaluate), Choose(pool, true)), Select(true, list))
    ensures var listed := Apply(Apply(Apply(c, Evaluate), Choose(pool, true)), Select(true, list));
      && listed.nodes == c.nodes && listed.known == c.known && listed.picks == c.picks
      && listed.phase == Emptying(c.pools - {pool}, PoolSnapshot(pool, c.pools[pool]), list[0])
  {
    hide OnlineListing, Target, Capacity, Used, NextPools, NextDrawn, NextLedger;
  }

  /** A create that has been forwarded and not been counted shows nowhere: from a resting state with a single, empty
      online node, the node is picked, listed and stopped, its row empty and unwritten, with the create on it. */
  lemma PickedNodeStopped(c: Control, pool: PoolId, id: NodeId, r: RequestId)
    requires c.phase == Resting && c.nodes.Keys == {id} && r !in c.picks
    requires c.nodes[id].status == Online && c.nodes[id].running == 0 < c.nodes[id].max
    requires pool in c.pools && c.pools[pool].provider == c.nodes[id].provider && c.pools[pool].provider in c.known
    requires c.pools[pool].current > c.pools[pool].min
    ensures exists es :: IsRun(c, es) && StoppingPicked(c, es, id, r)
  {
    hide OnlineListing, Target, Capacity, Used, Enabled, NextNodes, NextPhase, NextPools, NextDrawn, NextLedger,
      NextPicks, IsRun, Final, Unwritten, StoppingPicked;
    var t := Snapshot(id, c.nodes[id]);
    var list := [t];
    SingleListing(c.nodes, id, list);
    PickAlone(c, id, r);
    var c1 := Apply(c, PickFor(r, t));
    ListedAlone(c1, pool, id, list);
    var listed := Apply(Apply(Apply(c1, Evaluate), Choose(pool, true)), Select(true, list));
    ToStop(listed);
    Onto(c1, pool, list, [Drain(true)] + [Mark(true)]);
    var rest := UntilListed(pool, list) + ([Drain(true)] + [Mark(true)]);
    Prepend(c, PickFor(r, t), rest);
    NothingWritten(c, [PickFor(r, t)] + rest, id);
    StopsPicked(c, [PickFor(r, t)] + rest, id, r, listed);
  }

  /** About to stop the node: nothing written for it, its row empty, and the create waiting on it. */
  ghost predicate StoppingPicked(c: Control, es: seq<Event>, id: NodeId, r: RequestId)
    requires IsRun(c, es)
  {
    var d := Final(c, es);
    && Enabled(d, Stop(true)) && d.phase.target.id == id
    && id in d.nodes && d.nodes[id].running == 0 && Unwritten(c, es, id)
    && WaitsOn(d, r, id) && !Idle(d, id)
  }

  lemma PickAlone(c: Control, id: NodeId, r: RequestId)
    requires c.nodes.Keys == {id} && r !in c.picks
    requires c.nodes[id].status == Online && c.nodes[id].running < c.nodes[id].max
    ensures var e := PickFor(r, Snapshot(id, c.nodes[id]));
      && Enabled(c, e)
      && Apply(c, e) == c.(picks := c.picks[r := Snapshot(id, c.nodes[id])])
  {
  }

  lemma ToStop(c: Control)
    requires c.phase.Emptying? && c.phase.target.row.running == 0 && c.phase.target.row.provider in c.known
    requires c.phase.target.id in c.nodes
    ensures var es := [Drain(true)] + [Mark(true)];
      && IsRun(c, es)
      && Final(c, es).phase == Stopping(c.phase.todo, c.phase.s, c.phase.target) && Final(c, es).picks == c.picks
      && c.phase.target.id in Final(c, es).nodes
      && Final(c, es).nodes[c.phase.target.id].running == c.nodes[c.phase.target.id].running
  {
    hide IsRun, Final, Capacity, Used, Target, OnlineListing, Answers;
    Single(Apply(c, Drain(true)), Mark(true));
    Prepend(c, Drain(true), [Mark(true)]);
  }

  lemma StopsPicked(c: Control, es: seq<Event>, id: NodeId, r: RequestId, listed: Control)
    requires IsRun(c, es) && Unwritten(c, es, id)
    requires var d := Final(c, es);
      && d.phase.Stopping? && d.phase.target.id == id && d.picks == listed.picks
      && id in d.nodes && d.nodes[id].running == 0
    requires r in listed.picks && listed.picks[r].id == id
    ensures StoppingPicked(c, es, id, r)
  {
    hide IsRun, Final, Unwritten;
    assert WaitsOn(Final(c, es), r, id);
  }

  lemma {:induction false} NothingWritten(c: Control, es: seq<Event>, id: NodeId)
    requires IsRun(c, es) && forall i :: 0 <= i < |es| ==> !es[i].Heartbeat? && !es[i].CountFor?
    ensures Unwritten(c, es, id)
    decreases |es|
  {
    hide Enabled, NextNodes, NextPools, NextPhase, NextLedger, NextPicks, NextDrawn;
    if es != [] {
      assert !es[0].Heartbeat? && !es[0].CountFor?;
      NothingWritten(Apply(c, es[0]), es[1..], id);
    }
  }

  function UntilListed(pool: PoolId, list: seq<Snapshot>): seq<Event> {
    [Evaluate] + ([Choose(pool, true)] + [Select(true, list)])
  }

  lemma Onto(c: Control, pool: PoolId, list: seq<Snapshot>, es: seq<Event>)
    requires Enabled(c, Evaluate) && Enabled(Apply(c, Evaluate), Choose(pool, true))
    requires Enabled(Apply(Apply(c, Evaluate), Choose(pool, true)), Select(true, list))
    requires IsRun(Apply(Apply(Apply(c, Evaluate), Choose(pool, true)), Select(true, list)), es)
    ensures IsRun(c, UntilListed(pool, list) + es)
    ensures Final(c, UntilListed(pool, list) + es)
      == Final(Apply(Apply(Apply(c, Evaluate), Choose(pool, true)), Select(true, list)), es)
  {
    hide Enabled, NextNodes, NextPools, NextPhase, NextLedger, NextPicks, NextDrawn;
    var c1 := Apply(c, Evaluate);
    var c2 := Apply(c1, Choose(pool, true));
    Prepend(c2, Select(true, list), es);
    Prepend(c1, Choose(pool, true), [Select(true, list)] + es);
    Prepend(c, Evaluate, [Choose(pool, true)] + ([Select(true, list)] + es));
    assert UntilListed(pool, list) + es == [Evaluate] + ([Choose(pool, true)] + ([Select(true, list)] + es));
  }

  lemma SingleListing(nodes: Nodes, id: NodeId, list: seq<Snapshot>)
    requires nodes.Keys == {id} && nodes[id].status == Online && nodes[id].running == 0
    requires list == [Snapshot(id, nodes[id])]
    ensures OnlineListing(list, nodes) && Target(list, nodes[id].provider) == Some(list[0])
    ensures Used(nodes) == 0 && Capacity(nodes) == nodes[id].max
  {
    DropRow(nodes, id);
    assert nodes - {id} == map[];
    assert Maxes(map[]) == map[] && Loads(map[]) == map[];
  }

  lemma {:induction false} SkipPools(c: Control) returns (es: seq<Event>)
    requires c.phase.Choosing?
    ensures IsRun(c, es) && Final(c, es) == c.(phase := Choosing(map[]))
    decreases |c.phase.todo|
  {
    hide IsRun, Final, Capacity, Used, Target, OnlineListing, Answers;
    if c.phase.todo == map[] {
      es := [];
      NoSteps(c);
    } else {
      var pool :| pool in c.phase.todo;
      var rest := SkipPools(Apply(c, Choose(pool, false)));
      Prepend(c, Choose(pool, false), rest);
      es := [Choose(pool, false)] + rest;
    }
  }

  lemma NoSteps(c: Control)
    ensures IsRun(c, []) && Final(c, []) == c
  {
  }

  /** From a resting state with a stale row: listed, heard from, and declared offline on the old reading. */
  lemma HeardButOffline(c: Control, id: NodeId, start: int, running: int, now: int)
    requires c.phase == Resting && id in c.nodes && Stale(c.nodes[id], start)
    ensures exists es ::
      (IsRun(c, es + [Heartbeat(id, running, now), Scan(id, true)])
       && OfflineSince(Final(c, es + [Heartbeat(id, running, now), Scan(id, true)]), id, now))
  {
    hide IsRun, Final, Stale, Enabled, NextNodes, NextPools, NextPhase, NextLedger, NextPicks, NextDrawn;
    Begins(c);
    var c1 := Apply(c, Evaluate);
    var skip := SkipPools(c1);
    var c2 := Final(c1, skip);
    Looks(c, c2, id, start);
    var c3 := Apply(c2, Look(true, start));
    var last := [Heartbeat(id, running, now), Scan(id, true)];
    LateScan(c3, id, running, now);
    Prepend(c2, Look(true, start), last);
    Chain(c1, skip, [Look(true, start)] + last);
    Prepend(c, Evaluate, skip + ([Look(true, start)] + last));
    var es := [Evaluate] + (skip + [Look(true, start)]);
    assert es + last == [Evaluate] + (skip + ([Look(true, start)] + last));
    assert OfflineSince(Final(c, es + last), id, now);
  }

  /** Offline, though last heard from at this time. */
  ghost predicate OfflineSince(c: Control, id: NodeId, now: int) {
    id in c.nodes && c.nodes[id].status == Offline && c.nodes[id].lastSeen == Seconds(now)
  }

  lemma Begins(c: Control)
    requires c.phase == Resting
    ensures Enabled(c, Evaluate)
    ensures Apply(c, Evaluate).phase == Choosing(c.pools) && Apply(c, Evaluate).nodes == c.nodes
  {
  }

  lemma Looks(c: Control, d: Control, id: NodeId, start: int)
    requires d.nodes == c.nodes && d.phase == Choosing(map[]) && id in c.nodes
    ensures Enabled(d, Look(true, start))
    ensures Apply(d, Look(true, start)).phase == Scanning(c.nodes, start)
    ensures Apply(d, Look(true, start)).nodes == c.nodes
  {
  }

  lemma LateScan(c: Control, id: NodeId, running: int, now: int)
    requires c.phase.Scanning? && id in c.phase.unseen && Stale(c.phase.unseen[id], c.phase.now) && id in c.nodes
    ensures var es := [Heartbeat(id, running, now), Scan(id, true)];
      IsRun(c, es) && OfflineSince(Final(c, es), id, now)
  {
    hide IsRun, Final, NextPools, NextLedger, NextPicks, NextDrawn, Capacity, Used, OnlineListing, Answers;
    var c1 := Apply(c, Heartbeat(id, running, now));
    Single(c1, Scan(id, true));
    Prepend(c, Heartbeat(id, running, now), [Scan(id, true)]);
    assert [Heartbeat(id, running, now)] + [Scan(id, true)] == [Heartbeat(id, running, now), Scan(id, true)];
  }

  lemma {:induction false} Chain(c: Control, es: seq<Event>, rest: seq<Event>)
    requires IsRun(c, es) && IsRun(Final(c, es), rest)
    ensures IsRun(c, es + rest) && Final(c, es + rest) == Final(Final(c, es), rest)
    decreases |es|
  {
    hide Enabled, NextNodes, NextPools, NextPhase, NextLedger, NextPicks, NextDrawn;
    if es == [] {
      assert es + rest == rest;
    } else {
      Chain(Apply(c, es[0]), es[1..], rest);
      Prepend(c, es[0], es[1..] + rest);
      assert es + rest == [es[0]] + (es[1..] + rest);
    }
  }
}
