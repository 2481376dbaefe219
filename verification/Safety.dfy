/** Safety of the dispatch system, stated over every run of it. */
module Safety {
  import opened Domain
  import opened Options
  import opened Tables
  import Ledger
  import opened LedgerInv
  import opened LedgerProof
  import opened System
  import opened SystemProof
  import Labels

  // ----- runs -----

  lemma InitOk(s: State)
    requires Init(s)
    ensures SysInv(s)
  {
  }

  lemma LinkAt(states: seq<State>, steps: seq<Step>, i: nat)
    requires Run(states, steps) && i < |steps|
    ensures Link(states[i], steps[i], states[i + 1])
  {
  }

  /** Every reachable state satisfies the invariant. */
  lemma {:induction false} Reachable(states: seq<State>, steps: seq<Step>, i: nat)
    requires Run(states, steps) && i < |states|
    ensures SysInv(states[i])
  {
    if i == 0 {
      InitOk(states[0]);
    } else {
      Reachable(states, steps, i - 1);
      SysStepKeeps(states[i - 1], steps[i - 1]);
    }
  }

  lemma ReachableRuns(states: seq<State>, steps: seq<Step>, i: nat)
    requires Run(states, steps) && i < |states|
    ensures RunsOk(states[i].l)
  {
    Reachable(states, steps, i);
  }

  lemma ReachableCaps(states: seq<State>, steps: seq<Step>, i: nat)
    requires Run(states, steps) && i < |states|
    ensures RunsOk(states[i].l) && CapsOk(states[i].l)
  {
    Reachable(states, steps, i);
  }

  lemma StepForward(states: seq<State>, steps: seq<Step>, i: nat)
    requires Run(states, steps) && i < |steps|
    ensures Evolves(states[i].l, states[i + 1].l)
  {
    Reachable(states, steps, i);
    SysStepKeeps(states[i], steps[i]);
  }

  lemma {:induction false} Forward(states: seq<State>, steps: seq<Step>, i: nat, j: nat)
    requires Run(states, steps) && i <= j < |states|
    ensures Evolves(states[i].l, states[j].l)
    decreases j - i
  {
    if i == j {
      EvolvesReflexive(states[i].l);
    } else {
      Forward(states, steps, i, j - 1);
      StepForward(states, steps, j - 1);
      EvolvesTransitive(states[i].l, states[j - 1].l, states[j].l);
    }
  }

  // ----- one authority per run -----

  lemma SameAuthority(l: Ledger.State, c: Capability, d: Capability)
    requires RunsOk(l) && CapsOk(l) && c in l.issued && d in l.issued && c.uid == d.uid
    ensures c.worker == d.worker && c.dispatch == d.dispatch && c.deadline == d.deadline
         && c.version == d.version && c.probe == d.probe
  {
    var r :| r in l.stored && SpeaksFor(c, r);
    var q :| q in l.stored && SpeaksFor(d, q);
    assert RunOk(l, r) && RunOk(l, q) && Consistent(r, q);
  }

  /** However claims, redeliveries, lost answers, re-claims, legacy Auth calls and reconciler
      scans interleave, all capabilities ever issued for one run agree: one worker, one
      dispatch, one deadline, one version, one probe. */
  lemma SingleAuthority(states: seq<State>, steps: seq<Step>, i: nat, j: nat, c: Capability, d: Capability)
    requires Run(states, steps) && i <= j < |states|
    requires c in states[i].l.issued && d in states[j].l.issued && c.uid == d.uid
    ensures c.worker == d.worker && c.dispatch == d.dispatch && c.deadline == d.deadline
         && c.version == d.version && c.probe == d.probe
  {
    Forward(states, steps, i, j);
    Reachable(states, steps, j);
    SameAuthority(states[j].l, c, d);
  }

  /** A run placed on a runner is only ever claimed, through a dispatch, by a worker of that
      runner: the record every such capability speaks for names the runner it was placed on. */
  lemma ClaimsRespectPlacement(states: seq<State>, steps: seq<Step>, i: nat, r: Result, c: Capability)
    requires Run(states, steps) && i < |states| && c in states[i].l.issued && c.dispatch.Some?
    requires r in states[i].l.stored && r.uid == c.uid && r.status == Pending && r.runner != ""
    ensures exists q :: q in states[i].l.stored && SpeaksFor(c, q) && q.runner == r.runner
  {
    Reachable(states, steps, i);
    var q :| q in states[i].l.stored && SpeaksFor(c, q);
    assert RunOk(states[i].l, r) && RunOk(states[i].l, q) && Consistent(r, q);
  }

  /** However its message was redelivered, its claim re-issued and its worker restarted, all
      handlers executing one run are of one worker identity, and each process has at most one.
      `TwoProcesses.OneExecutionIff` says when that leaves a single one. */
  lemma OneExecution(states: seq<State>, steps: seq<Step>, n: nat, i: nat, j: nat)
    requires Run(states, steps) && n < |states| && i in states[n].floor && j in states[n].floor
    requires states[n].floor[i].phase.Executing? && states[n].floor[j].phase.Executing?
    requires states[n].floor[i].msg.uid == states[n].floor[j].msg.uid
    ensures states[n].floor[i].who == states[n].floor[j].who
    ensures states[n].floor[i].process == states[n].floor[j].process ==> i == j
  {
    hide Inv, RowsOk, SweepOk;
    Reachable(states, steps, n);
    ReachableCaps(states, steps, n);
    var s := states[n];
    assert HandlerOk(s.l, s.net, s.floor[i]) && HandlerOk(s.l, s.net, s.floor[j]);
    assert MsgOk(s.l, s.floor[i].msg) && MsgOk(s.l, s.floor[j].msg);
    var c :| c in s.l.issued && c.uid == s.floor[i].msg.uid && c.worker == s.floor[i].who.worker;
    var d :| d in s.l.issued && d.uid == s.floor[j].msg.uid && d.worker == s.floor[j].who.worker;
    SameAuthority(s.l, c, d);
    assert s.floor[i].process == s.floor[j].process ==> SameHold(s.floor[i], s.floor[j]);
  }

  /** Every deadline is at most the time of the claim plus the server's maximum. */
  lemma DeadlineBounded(states: seq<State>, steps: seq<Step>, i: nat, c: Capability)
    requires Run(states, steps) && i < |states| && c in states[i].l.issued && c.deadline.Some?
    ensures exists r :: r in states[i].l.stored && SpeaksFor(c, r) && r.started.Some?
                     && c.deadline.value <= r.started.value + MaxRun(states[i].l.cfg)
  {
    Reachable(states, steps, i);
    var r :| r in states[i].l.stored && SpeaksFor(c, r);
    assert RunOk(states[i].l, r);
  }

  /** A run that uses its whole budget can still report: a claim's capability outlives the
      deadline by the upload grace, less the fraction of a second its expiry drops. */
  lemma CapabilityOutlivesDeadline(states: seq<State>, steps: seq<Step>, i: nat, c: Capability)
    requires Run(states, steps) && i < |states| && c in states[i].l.issued && c.deadline.Some?
    ensures c.deadline.value + ARTIFACT_UPLOAD_GRACE - SECOND < c.expiry <= c.deadline.value + ARTIFACT_UPLOAD_GRACE
  {
    Reachable(states, steps, i);
  }

  // ----- no dispatch is lost -----

  /** An administrator removed the row, and it has not been written again since. */
  ghost predicate RemovedSince(states: seq<State>, steps: seq<Step>, i: nat, e: EventId)
    requires |states| == |steps| + 1 && i < |states|
  {
    exists k {:trigger steps[k]} :: 0 <= k < i && steps[k] == Control(Ledger.RemoveRow(e))
      && forall j :: k < j <= i ==> e !in states[j].l.db.outbox
  }

  /** Only a removal takes a row, and a dispatch not written yet is written with its row. */
  lemma RowTaken(s: State, step: Step, e: EventId)
    requires SysInv(s) && Enabled(s, step) && e in Apply(s, step).l.routed && e !in Apply(s, step).l.db.outbox
    ensures e in s.l.routed && (e in s.l.db.outbox ==> step == Control(Ledger.RemoveRow(e)))
  {
    hide Ledger.ClaimStep, Ledger.FileStep, SysInv;
    if step.Control? {
      ControlTakes(s.l, step.step, e);
    } else if step.AskClaim? {
      var h := s.floor[step.id];
      ClaimLeaves(s.l, h.who, RequestOf(h.msg, step.timeout), step.entry, step.at);
    } else if step.FileReport? {
      FileReportEffect(s, step);
      var h := s.floor[step.id];
      FileLeaves(s.l, ReportName(h.msg, h.phase.reason), ReportOf(h.msg, h.phase.reason), step.entry, step.at);
    } else {
      RestTakes(s, step, e);
    }
  }

  lemma RestTakes(s: State, step: Step, e: EventId)
    requires Enabled(s, step) && !step.Control? && !step.AskClaim? && !step.FileReport?
    ensures Apply(s, step).l.routed == s.l.routed && (e in s.l.db.outbox ==> e in Apply(s, step).l.db.outbox)
  {
  }

  lemma ControlTakes(l: Ledger.State, step: Ledger.Step, e: EventId)
    requires Ledger.Enabled(l, step) && e in Ledger.Apply(l, step).routed && e !in Ledger.Apply(l, step).db.outbox
    ensures e in l.routed && (e in l.db.outbox ==> step == Ledger.RemoveRow(e))
  {
    hide Ledger.ClaimStep, Ledger.FileStep, Ledger.Enabled, LegacyCapability, LegacyTake, CompleteRun, FailRun;
    match step {
      case Claim(uid, who, request, entry, at) =>
        ClaimLeaves(l, who, request, entry, at);
        case FileFailure(name, report, entry, at) =>
        FileLeaves(l, name, report, entry, at);
        case _ =>
    }
  }

  /** A row once written is missing exactly while a removal has not been made good. */
  lemma {:induction false} MissingIffRemoved(states: seq<State>, steps: seq<Step>, i: nat, e: EventId)
    requires Run(states, steps) && i < |states| && e in states[i].l.routed
    ensures e !in states[i].l.db.outbox <==> RemovedSince(states, steps, i, e)
  {
    hide SysInv, Apply, Enabled;
    if e !in states[i].l.db.outbox && i > 0 {
      Reachable(states, steps, i - 1);
      LinkAt(states, steps, i - 1);
      RowTaken(states[i - 1], steps[i - 1], e);
      if e !in states[i - 1].l.db.outbox {
        MissingIffRemoved(states, steps, i - 1, e);
        var k :| 0 <= k < i - 1 && steps[k] == Control(Ledger.RemoveRow(e))
          && forall j :: k < j <= i - 1 ==> e !in states[j].l.db.outbox;
        assert steps[k] == Control(Ledger.RemoveRow(e));
      }
    }
  }

  /** Every pending run is at the version it was created at and has exactly one outbox row, which
      is not retired; the row is missing exactly while a removal by an administrator has not been
      made good. */
  lemma NoLostDispatch(states: seq<State>, steps: seq<Step>, i: nat, uid: string)
    requires Run(states, steps) && i < |states| && IsPending(states[i].l, uid)
    ensures states[i].l.db.results[uid].version == CREATED_VERSION
    ensures var e := DispatchEvent(uid, CREATED_VERSION); var outbox := states[i].l.db.outbox;
      && (e !in outbox <==> RemovedSince(states, steps, i, e))
      && (e in outbox ==> outbox[e].retiredAt.None? && outbox[e].runner == states[i].l.db.results[uid].runner)
      && forall d :: d in outbox && outbox[d].uid == uid ==> d == e
  {
    hide RemovedSince, NetOk, FloorOk;
    Reachable(states, steps, i);
    var l := states[i].l;
    var e := DispatchEvent(uid, CREATED_VERSION);
    assert RunOk(l, l.db.results[uid]) && Awaited(l, uid) && Dispatched(l, l.db.results[uid]) && RowOk(l, e);
    MissingIffRemoved(states, steps, i, e);
    forall d | d in l.db.outbox && l.db.outbox[d].uid == uid ensures d == DispatchEvent(uid, CREATED_VERSION) {
      assert RowOk(l, d);
    }
  }

  /** A scan that finds no row for a stale pending run may always write it again, and that gives
      the run its live row back, on the runner it was placed on. */
  lemma ReenqueueRestores(states: seq<State>, steps: seq<Step>, i: nat, uid: string, at: nat)
    requires Run(states, steps) && i < |states| && IsPending(states[i].l, uid) && at <= states[i].l.clock
    requires StalePending(states[i].l.db.results[uid], states[i].l.cfg.PendingTimeout(), at)
    requires DispatchEvent(uid, CREATED_VERSION) !in states[i].l.db.outbox
    ensures var e := DispatchEvent(uid, CREATED_VERSION); var l := states[i].l;
      var scan := Ledger.ScanPending(l.db.results[uid], at);
      var repair := Ledger.Reenqueue(Ledger.Candidate(l.db.results[uid], None, at));
      && Ledger.Enabled(l, scan) && Ledger.Enabled(Ledger.Apply(l, scan), repair)
      && var m := Ledger.Apply(Ledger.Apply(l, scan), repair);
         && e in m.db.outbox && BelongsToRelay(m.db.outbox[e]) && m.db.outbox[e].runner == l.db.results[uid].runner
         && m.db.results == l.db.results && m.db.outbox - {e} == l.db.outbox
  {
    hide NetOk, FloorOk, CapsOk, FailuresOk, ScansOk, OutboxOk, Consistent;
    Reachable(states, steps, i);
    var l := states[i].l;
    assert RunOk(l, l.db.results[uid]);
    var m := Ledger.Apply(l, Ledger.ScanPending(l.db.results[uid], at));
    assert Ledger.Candidate(l.db.results[uid], None, at) in m.scanned;
  }

  /** A repair acts on what its scan found, however late: it never overwrites a row that is there,
      and writes a missing one with the runner its dispatch always had. */
  lemma ReenqueueIsFaithful(states: seq<State>, steps: seq<Step>, i: nat, c: Ledger.Candidate)
    requires Run(states, steps) && i < |steps| && steps[i] == Control(Ledger.Reenqueue(c))
    ensures var e := DispatchEvent(c.run.uid, c.run.version);
      var before := states[i].l; var after := states[i + 1].l;
      && e in before.routed && after.db.results == before.db.results
      && (e in before.db.outbox ==> states[i + 1] == states[i])
      && (e !in before.db.outbox ==>
            && e in after.db.outbox && BelongsToRelay(after.db.outbox[e]) && after.db.outbox[e].runner == before.routed[e]
            && after.db.outbox - {e} == before.db.outbox && RemovedSince(states, steps, i, e))
  {
    hide NetOk, FloorOk, CapsOk, FailuresOk, RunsOk, RemovedSince;
    Reachable(states, steps, i);
    LinkAt(states, steps, i);
    assert ScanOk(states[i].l, c) && Dispatched(states[i].l, c.run);
    MissingIffRemoved(states, steps, i, DispatchEvent(c.run.uid, c.run.version));
  }

  /** And where the run has moved on since the scan, the row it writes does nothing: whoever claims
      through it, on whatever record they loaded, no run changes and nobody new is authorised. */
  lemma LateRowIsHarmless(states: seq<State>, steps: seq<Step>, i: nat, j: nat, uid: string,
                          who: Claimant, request: ClaimRequest, entry: Option<Result>, at: nat)
    requires Run(states, steps) && i <= j < |states| && uid in states[i].l.used && !IsPending(states[i].l, uid)
    requires Ledger.Loaded(states[j].l, uid, entry) && at <= states[j].l.clock
    ensures var l := states[j].l; var m := Ledger.ClaimStep(l, who, request, entry, at);
      && m.db == l.db
      && forall c :: c in m.issued && c !in l.issued ==>
           c.uid == uid && entry.Some? && entry.value.status == Running && IsReclaim(entry.value, c.worker, c.dispatch)
  {
    hide NetOk, FloorOk, FailuresOk, ScansOk, OutboxOk;
    Reachable(states, steps, j);
    TerminalIsAbsorbing(states, steps, i, j, uid);
    SettledClaim(states[j].l, uid, who, request, entry, at);
  }

  lemma SettledClaim(l: Ledger.State, uid: string, who: Claimant, request: ClaimRequest, entry: Option<Result>, at: nat)
    requires RunsOk(l) && Ledger.Loaded(l, uid, entry) && !IsPending(l, uid)
    ensures var m := Ledger.ClaimStep(l, who, request, entry, at);
      && m.db == l.db
      && forall c :: c in m.issued && c !in l.issued ==>
           c.uid == uid && entry.Some? && entry.value.status == Running && IsReclaim(entry.value, c.worker, c.dispatch)
  {
    if entry.Some? {
      assert RunOk(l, entry.value);
      if Guard(l.db, entry.value) {
        GuardMeansUnchanged(l, entry.value);
      }
    }
  }

  // ----- terminal states -----

  /** Nothing reopens a run: once it is terminal (or gone) it stays so, and once it has left
      `pending` it never returns. */
  lemma TerminalIsAbsorbing(states: seq<State>, steps: seq<Step>, i: nat, j: nat, uid: string)
    requires Run(states, steps) && i <= j < |states| && uid in states[i].l.used
    ensures IsOver(states[i].l, uid) ==> IsOver(states[j].l, uid)
    ensures !IsPending(states[i].l, uid) ==> !IsPending(states[j].l, uid)
  {
    Forward(states, steps, i, j);
    SettledStays(states[i].l, states[j].l, uid);
  }

  /** The step is a report presenting the version its capability was issued for, and the
      version guard lets it through. */
  ghost predicate ReportLands(s: State, step: Step, c: Capability) {
    && step.Control? && step.step.UpdateStatus? && step.step.token == c && step.step.version == c.version
    && Guard(s.l.db, step.step.run)
  }

  /** Such a report only ever lands on the running run it was issued for, never on one already
      expired, stranded or completed. */
  lemma ReportLandsOnRunning(states: seq<State>, steps: seq<Step>, i: nat, c: Capability)
    requires Run(states, steps) && i < |steps| && ReportLands(states[i], steps[i], c)
    ensures c.uid in states[i].l.db.results
    ensures var before := states[i].l.db.results[c.uid];
      before.status == Running && before.worker == c.worker && before.version == c.version
    ensures var after := states[i + 1].l.db.results[c.uid];
      after.status == Completed && after.version == c.version + 1
  {
    Reachable(states, steps, i);
    var l := states[i].l;
    var run := steps[i].step.run;
    var r :| r in l.stored && SpeaksFor(c, r);
    GuardMeansUnchanged(l, run);
    assert Consistent(r, run);
  }

  /** And it lands at most once. */
  lemma ReportLandsOnce(states: seq<State>, steps: seq<Step>, i: nat, j: nat, c: Capability)
    requires Run(states, steps) && i < j < |steps|
    requires ReportLands(states[i], steps[i], c)
    ensures !ReportLands(states[j], steps[j], c)
  {
    ReportLandsOnRunning(states, steps, i, c);
    Forward(states, steps, i + 1, j);
    Reachable(states, steps, i + 1);
    assert states[i + 1].l.db.results[c.uid] in states[i + 1].l.stored;
    assert RunOk(states[i + 1].l, states[i + 1].l.db.results[c.uid]);
    assert RunEvolves(states[i + 1].l, states[j].l, c.uid);
    if ReportLands(states[j], steps[j], c) {
      ReportLandsOnRunning(states, steps, j, c);
    }
  }

  /** A run that is over and still on record. */
  ghost predicate Finished(l: Ledger.State, uid: string) {
    uid in l.db.results && l.db.results[uid].status.IsTerminal()
  }

  /** The step is a status report for the run that the version guard lets through. */
  ghost predicate Rewrites(l: Ledger.State, step: Ledger.Step, uid: string) {
    step.UpdateStatus? && step.run.uid == uid && Guard(l.db, step.run)
  }

  /** A write decided on a record that was not terminal does not reach a finished run. */
  lemma FinishedWrite(l: Ledger.State, entry: Result, next: Result, uid: string)
    requires RunsOk(l) && Finished(l, uid) && entry in l.stored && !entry.status.IsTerminal()
    requires next.uid == entry.uid && next.version == entry.version
    ensures var m := Ledger.Write(l, next); uid in m.db.results && m.db.results[uid] == l.db.results[uid]
  {
    if Guard(l.db, entry) {
      GuardMeansUnchanged(l, entry);
    }
  }

  lemma FinishedClaim(l: Ledger.State, u: string, who: Claimant, request: ClaimRequest, entry: Option<Result>, at: nat, uid: string)
    requires RunsOk(l) && Finished(l, uid) && Ledger.Loaded(l, u, entry)
    ensures var m := Ledger.ClaimStep(l, who, request, entry, at); uid in m.db.results && m.db.results[uid] == l.db.results[uid]
  {
    if entry.Some? {
      assert RunOk(l, entry.value);
    }
    match Adjudicate(entry, who, request, at, l.cfg.maxRunDuration) {
      case Take(next) => FinishedWrite(l, entry.value, next, uid);
      case _ =>
    }
  }

  lemma FinishedStrand(l: Ledger.State, u: string, version: nat, entry: Option<Result>, at: nat, uid: string)
    requires RunsOk(l) && Finished(l, uid) && Ledger.Loaded(l, u, entry)
    ensures var m := Ledger.StrandStep(l, u, version, entry, at); uid in m.db.results && m.db.results[uid] == l.db.results[uid]
  {
    if entry.Some? && entry.value.status == Pending {
      FinishedWrite(l, entry.value, FailRun(entry.value, at), uid);
    }
  }

  lemma FinishedFile(l: Ledger.State, name: string, report: Report, entry: Option<Result>, at: nat, uid: string)
    requires RunsOk(l) && Finished(l, uid) && Ledger.Loaded(l, report.uid, entry)
    ensures var m := Ledger.FileStep(l, name, report, entry, at); uid in m.db.results && m.db.results[uid] == l.db.results[uid]
  {
    if name !in l.db.failures {
      FinishedStrand(l, report.uid, report.version, entry, at, uid);
      FileOrder(l, name, report, entry, at);
    }
  }

  lemma FinishedExpire(l: Ledger.State, run: Result, at: nat, uid: string)
    requires RunsOk(l) && Finished(l, uid) && run in l.stored
    ensures var m := Ledger.ExpireStep(l, run, at); uid in m.db.results && m.db.results[uid] == l.db.results[uid]
  {
    if !run.status.IsTerminal() && Guard(l.db, run) {
      GuardMeansUnchanged(l, run);
    }
  }

  lemma FinishedFresh(l: Ledger.State, uid: string)
    requires RunsOk(l) && Finished(l, uid)
    ensures uid in l.used
  {
    assert RunOk(l, l.db.results[uid]);
  }

  lemma FinishedScan(l: Ledger.State, c: Ledger.Candidate, uid: string)
    requires Inv(l) && c in l.scanned && Finished(l, uid)
    ensures var m := Ledger.ExpireStep(l, c.run, c.at); uid in m.db.results && m.db.results[uid] == l.db.results[uid]
  {
    assert ScanOk(l, c);
    FinishedExpire(l, c.run, c.at, uid);
  }

  lemma FinishedReport(l: Ledger.State, step: Ledger.Step, uid: string)
    requires Finished(l, uid) && step.UpdateStatus?
    ensures var m := Ledger.Apply(l, step);
      uid in m.db.results && (m.db.results[uid] != l.db.results[uid] <==> Rewrites(l, step, uid))
  {
  }

  lemma FinishedRest(l: Ledger.State, step: Ledger.Step, uid: string)
    requires Ledger.Enabled(l, step) && Finished(l, uid) && uid in l.used
    requires step.EditScenario? || step.DropScenario? || step.Create? || step.Delete? || step.ScanPending? || step.Reenqueue?
          || step.RemoveRow? || step.Retry? || step.Resolve?
    ensures var m := Ledger.Apply(l, step); uid in m.db.results ==> m.db.results[uid] == l.db.results[uid]
  {
  }

  lemma FinishedControl(l: Ledger.State, step: Ledger.Step, uid: string)
    requires Inv(l) && Ledger.Enabled(l, step) && Finished(l, uid)
    ensures var m := Ledger.Apply(l, step);
      uid in m.db.results ==> (m.db.results[uid] != l.db.results[uid] <==> Rewrites(l, step, uid))
  {
    hide Ledger.ClaimStep, Ledger.FileStep, Ledger.ExpireStep, Ledger.StrandStep, Labels.RecordName, CompleteRun;
    hide OutboxOk, FailuresOk, CapsOk, ScansOk, RunOk, Consistent;
    hide Ledger.CreateStep, Ledger.RetryStep, Ledger.ResolveStep, EnqueueDispatch, DeleteRun;
    FinishedFresh(l, uid);
    match step {
      case UpdateStatus(token, version, run, at, outcome) => FinishedReport(l, step, uid);
      case Claim(u, who, request, entry, at) => FinishedClaim(l, u, who, request, entry, at, uid);
      case LegacyAuth(who, run, at, timeout) => FinishedWrite(l, run, LegacyTake(run, who, at), uid);
      case ExpireRunning(run, at) => FinishedExpire(l, run, at, uid);
      case ExpirePending(c) => FinishedScan(l, c, uid);
      case FileFailure(name, report, entry, at) => FinishedFile(l, name, report, entry, at, uid);
      case StrandUnplaced(event, entry, at) => FinishedStrand(l, event.uid, event.version, entry, at, uid);
      case _ => FinishedRest(l, step, uid);
    }
  }

  predicate LeavesRuns(step: Step) {
    !(step.Control? || step.AskClaim? || step.FileReport?)
  }

  lemma RunsLeft(s: State, step: Step)
    requires Enabled(s, step) && LeavesRuns(step)
    ensures Apply(s, step).l.db.results == s.l.db.results
  {
  }

  lemma FinishedAsk(s: State, step: Step, uid: string)
    requires RunsOk(s.l) && Enabled(s, step) && step.AskClaim? && Finished(s.l, uid)
    ensures var m := Apply(s, step).l; uid in m.db.results && m.db.results[uid] == s.l.db.results[uid]
  {
    var h := s.floor[step.id];
    FinishedClaim(s.l, h.msg.uid, h.who, RequestOf(h.msg, step.timeout), step.entry, step.at, uid);
  }

  lemma FinishedFiling(s: State, step: Step, uid: string)
    requires RunsOk(s.l) && Enabled(s, step) && step.FileReport? && Finished(s.l, uid)
    ensures var m := Apply(s, step).l; uid in m.db.results && m.db.results[uid] == s.l.db.results[uid]
  {
    hide ReportName, ReportOf, Ledger.FileStep;
    var h := s.floor[step.id];
    FileReportEffect(s, step);
    ReportIsNamed(h.msg, h.phase.reason);
    FinishedFile(s.l, ReportName(h.msg, h.phase.reason), ReportOf(h.msg, h.phase.reason), step.entry, step.at, uid);
  }

  lemma FinishedStep(s: State, step: Step, t: State, uid: string)
    requires SysInv(s) && Enabled(s, step) && t == Apply(s, step) && Finished(s.l, uid)
    ensures uid in t.l.db.results ==>
      (t.l.db.results[uid] != s.l.db.results[uid] <==> step.Control? && Rewrites(s.l, step.step, uid))
  {
    hide Ledger.Apply, Rewrites;
    if LeavesRuns(step) {
      RunsLeft(s, step);
    } else if step.Control? {
      FinishedControl(s.l, step.step, uid);
    } else if step.AskClaim? {
      FinishedAsk(s, step, uid);
    } else {
      FinishedFiling(s, step, uid);
    }
  }

  /** The record of a finished run changes in exactly one way short of deletion: a status report
      presenting its current version. The program does not consult the run's state there. */
  lemma FinishedChangesIff(states: seq<State>, steps: seq<Step>, i: nat, uid: string)
    requires Run(states, steps) && i < |steps| && Finished(states[i].l, uid) && uid in states[i + 1].l.db.results
    ensures states[i + 1].l.db.results[uid] != states[i].l.db.results[uid]
       <==> steps[i].Control? && Rewrites(states[i].l, steps[i].step, uid)
  {
    Reachable(states, steps, i);
    LinkAt(states, steps, i);
    FinishedStep(states[i], steps[i], states[i + 1], uid);
  }

  /** An expired or stranded run: no capability in force speaks for it. */
  ghost predicate Frozen(l: Ledger.State, uid: string) {
    uid in l.db.results && (l.db.results[uid].status == Expired || l.db.results[uid].status == Errored)
  }

  lemma NoTokenForFrozen(l: Ledger.State, step: Ledger.Step)
    requires Inv(l) && Ledger.Enabled(l, step) && step.UpdateStatus? && l.cfg.leaseGrace >= ARTIFACT_UPLOAD_GRACE
    requires Frozen(l, step.run.uid)
    ensures !Guard(l.db, step.run)
  {
    var run, c := step.run, step.token;
    var r :| r in l.stored && SpeaksFor(c, r);
    assert RunOk(l, r) && RunOk(l, run) && Consistent(r, run) && Consistent(run, r);
    assert run.status != Expired && run.status != Errored;
    assert Consistent(run, l.db.results[run.uid]);
  }

  lemma FrozenStep(s: State, step: Step, t: State, uid: string)
    requires SysInv(s) && Enabled(s, step) && t == Apply(s, step)
    requires Frozen(s.l, uid) && s.l.cfg.leaseGrace >= ARTIFACT_UPLOAD_GRACE
    ensures uid in t.l.db.results ==> t.l.db.results[uid] == s.l.db.results[uid]
  {
    hide Ledger.Apply, Inv;
    FinishedStep(s, step, t, uid);
    if step.Control? && step.step.UpdateStatus? && step.step.run.uid == uid {
      NoTokenForFrozen(s.l, step.step);
    }
  }

  /** With at least the default grace, the record of an expired or stranded run is immutable
      history: no step of any run rewrites it. */
  lemma {:induction false} FrozenForever(states: seq<State>, steps: seq<Step>, i: nat, j: nat, uid: string)
    requires Run(states, steps) && i <= j < |states| && Frozen(states[i].l, uid)
    requires states[i].l.cfg.leaseGrace >= ARTIFACT_UPLOAD_GRACE
    ensures uid in states[j].l.db.results ==> states[j].l.db.results[uid] == states[i].l.db.results[uid]
    decreases j - i
  {
    hide SysInv, Evolves, Apply;
    if i < j {
      FrozenForever(states, steps, i, j - 1, uid);
      Forward(states, steps, i, j - 1);
      ReachableRuns(states, steps, i);
      FinishedFresh(states[i].l, uid);
      Reachable(states, steps, j - 1);
      StepForward(states, steps, j - 1);
      GoneStays(states[i].l, states[j - 1].l, states[j].l, uid);
      if uid in states[j - 1].l.db.results {
        LinkAt(states, steps, j - 1);
        FrozenStep(states[j - 1], steps[j - 1], states[j], uid);
      }
    }
  }

  lemma GoneStays(l: Ledger.State, m: Ledger.State, n: Ledger.State, uid: string)
    requires uid in l.used && Evolves(l, m) && Evolves(m, n)
    ensures uid !in m.db.results ==> uid !in n.db.results
    ensures m.cfg == l.cfg
  {
    assert RunEvolves(m, n, uid);
  }

  // ----- leaving the queue -----

  /** The record under this name does not speak for the run: it names another, or another version,
      or was filed before there was such a run. */
  ghost predicate Misnamed(l: Ledger.State, name: string, uid: string) {
    name in l.db.failures && !(name in l.known && Names(l.db.failures[name].report, uid))
  }

  /** The message outlives the broker's age limit, is a local duplicate of a run the same process
      holds, or is removed after a report the API will refuse for ever. */
  ghost predicate AllowedLoss(s: State, step: Step, m: Msg) {
    || (step.Tick? && Aged(m, step.now, s.l.cfg.maxJobAge))
    || (step.DropDuplicate? && step.id in s.floor && Holds(s, s.floor[step.id].process, m.uid))
    || (step.Terminate? && step.id in s.floor && s.floor[step.id].phase.Unfiled?
        && s.floor[step.id].phase.status.Some? && 400 <= s.floor[step.id].phase.status.value < 500)
  }

  /** The message is removed because its report found a record already on file, one that is not
      about its run. */
  ghost predicate MisreportedLoss(s: State, step: Step, m: Msg) {
    && step.Terminate? && step.id in s.floor && s.floor[step.id].msg == m && s.floor[step.id].phase.Filed?
    && Misnamed(s.l, ReportName(m, s.floor[step.id].phase.reason), m.uid)
  }

  /** The message goes with its stream, or is taken in place of one an earlier stream had at its
      sequence: neither an acknowledgement nor a withdrawal says which stream it means. */
  ghost predicate StreamLoss(s: State, step: Step) {
    || step.RecreateStream?
    || (step.SweepDrop? && step.stale.era < s.net.era)
    || ((step.DropDuplicate? || step.Dispose? || step.Terminate?) && step.id in s.floor
        && s.floor[step.id].position.era < s.net.era)
  }

  /** Which steps take which message out of the queue. */
  lemma ExitShape(s: State, step: Step, p: nat)
    requires Enabled(s, step) && p in s.net.queue && p !in Apply(s, step).net.queue
    ensures
      || (step.Tick? && Aged(s.net.queue[p], step.now, s.l.cfg.maxJobAge))
      || step.RecreateStream?
      || (step.SweepDrop? && p == step.stale.row.publishedSeq)
      || ((step.DropDuplicate? || step.Dispose? || step.Terminate?) && step.id in s.floor && p == s.floor[step.id].position.sequence)
  {
    hide RunIsOver, Delivered, Holds, Ledger.Enabled, Ledger.Apply, Publish, MarkPublished, ClaimRows, OutcomeOf, ClassifyClaimFailure;
    hide PermanentReportRefusal, ReleaseAbandoned, RetireDispatch, ReportName, ReportOf;
    if step.RelayPublish? {
      PublishKeepsQueue(s.net, step.event, s.l.routed[step.event], s.l.clock, step.duplicateOf);
    }
  }

  lemma PublishKeepsQueue(net: Net, e: EventId, runner: string, now: nat, duplicateOf: Option<nat>)
    ensures forall p :: p in net.queue ==> p in Publish(net, e, runner, now, duplicateOf).queue
  {
  }

  lemma ExitGuard(s: State, step: Step, p: nat)
    requires Enabled(s, step) && p in s.net.queue && p !in Apply(s, step).net.queue
    ensures step.DropDuplicate? ==> step.id in s.floor && Holds(s, s.floor[step.id].process, s.floor[step.id].msg.uid)
    ensures step.SweepDrop? ==> step.stale in s.net.swept && step.stale.row.publishedAt.Some?
    ensures step.Dispose? ==> step.id in s.floor && s.floor[step.id].phase in {Answered(ClaimAccepted), Answered(ClaimStale)}
    ensures step.Terminate? ==> step.id in s.floor && MayTerminate(s.floor[step.id].phase)
  {
  }

  lemma WithdrawnIsOver(l: Ledger.State, net: Net, d: Stale)
    requires LogOk(l, net) && SweepOk(l, net, d) && d.row.publishedAt.Some? && d.row.publishedSeq in net.queue
    ensures d.era == net.era ==> net.queue[d.row.publishedSeq].event == d.row.event && IsOver(l, net.queue[d.row.publishedSeq].uid)
    ensures d.era == net.era ==> !IsPending(l, net.queue[d.row.publishedSeq].uid)
    ensures d.era <= net.era
  {
    var here := Here(net, d.row.publishedSeq);
    assert here in net.log && net.log[here] == net.queue[d.row.publishedSeq] && MsgOk(l, net.log[here]);
    assert Taken(net, Position(d.era, d.row.publishedSeq));
  }

  lemma FiledOrMisnamed(l: Ledger.State, name: string, uid: string)
    requires FailuresOk(l) && name in l.db.failures
    ensures !IsPending(l, uid) || Misnamed(l, name, uid)
  {
    if !Misnamed(l, name, uid) {
      RecordedMeansSettled(l, name);
    }
  }

  lemma QueueExitStep(s: State, step: Step, p: nat)
    requires SysInv(s) && Enabled(s, step) && p in s.net.queue && p !in Apply(s, step).net.queue
    ensures || !IsPending(s.l, s.net.queue[p].uid) || AllowedLoss(s, step, s.net.queue[p])
            || MisreportedLoss(s, step, s.net.queue[p]) || StreamLoss(s, step)
  {
    hide Apply, LogOk, RowsOk, IsPending, MsgOk, Misnamed, ReportName, Enabled, Holds, HandlerOk;
    ExitShape(s, step, p);
    ExitGuard(s, step, p);
    if step.SweepDrop? {
      assert SweepOk(s.l, s.net, step.stale);
      WithdrawnIsOver(s.l, s.net, step.stale);
    } else if !step.Tick? && !step.RecreateStream? {
      var h := s.floor[step.id];
      HeldMessage(s, step.id, p);
      if step.Terminate? && h.phase.Filed? {
        FiledOrMisnamed(s.l, ReportName(h.msg, h.phase.reason), h.msg.uid);
      }
    }
  }

  /** A handler and its sequence, in the present stream or an earlier one. */
  lemma HeldMessage(s: State, id: nat, p: nat)
    requires LogOk(s.l, s.net) && id in s.floor && HandlerOk(s.l, s.net, s.floor[id]) && p in s.net.queue && p == s.floor[id].position.sequence
    ensures s.floor[id].position.era <= s.net.era
    ensures s.floor[id].position.era == s.net.era ==> s.floor[id].msg == s.net.queue[p]
    ensures s.floor[id].phase in {Answered(ClaimAccepted), Answered(ClaimStale)} ==> !IsPending(s.l, s.floor[id].msg.uid)
    ensures s.floor[id].phase.Filed? ==> ReportName(s.floor[id].msg, s.floor[id].phase.reason) in s.l.db.failures
  {
    hide IsPending, MsgOk, ReportName;
    assert Taken(s.net, s.floor[id].position);
    assert s.floor[id].position.era == s.net.era ==> s.floor[id].position == Here(s.net, p);
  }

  /** In every run, a message whose run is still pending leaves the queue only because it
      outlived the broker's age limit, as a local duplicate of a run the same process holds,
      after a report the API will refuse for ever, after a report that found a record filed
      under its name about something else, or because its stream was recreated or took it for a
      message of an earlier one. In one stream, granted claims, stale acknowledgements and
      withdrawals never lose a pending run's message. */
  lemma SafeQueueExit(states: seq<State>, steps: seq<Step>, i: nat, p: nat)
    requires Run(states, steps) && i < |steps|
    requires p in states[i].net.queue && p !in states[i + 1].net.queue
    requires IsPending(states[i].l, states[i].net.queue[p].uid)
    ensures AllowedLoss(states[i], steps[i], states[i].net.queue[p])
         || MisreportedLoss(states[i], steps[i], states[i].net.queue[p])
         || StreamLoss(states[i], steps[i])
  {
    hide SysInv, AllowedLoss, MisreportedLoss, StreamLoss, Apply;
    Reachable(states, steps, i);
    LinkAt(states, steps, i);
    QueueExitStep(states[i], steps[i], p);
  }

  lemma FileReportEffect(s: State, step: Step)
    requires Enabled(s, step) && step.FileReport?
    ensures step.id in s.floor && s.floor[step.id].phase.Reporting?
    ensures var h := s.floor[step.id];
      && Ledger.Loaded(s.l, h.msg.uid, step.entry)
      && Apply(s, step).l == Ledger.FileStep(s.l, ReportName(h.msg, h.phase.reason), ReportOf(h.msg, h.phase.reason), step.entry, step.at)
  {
    hide ReportName, ReportOf, Ledger.FileStep;
  }

  lemma ReportSettles(s: State, step: Step)
    requires SysInv(s) && Enabled(s, step) && step.FileReport?
    ensures step.id in s.floor && s.floor[step.id].phase.Reporting?
    ensures var h := s.floor[step.id];
      IsPending(Apply(s, step).l, h.msg.uid) <==>
        IsPending(s.l, h.msg.uid) && ReportName(h.msg, h.phase.reason) in s.l.db.failures
  {
    hide ReportName, ReportOf, Apply, Enabled, Ledger.FileStep, IsPending;
    FileReportEffect(s, step);
    var h := s.floor[step.id];
    assert HandlerOk(s.l, s.net, h) && MsgOk(s.l, h.msg);
    ReportIsNamed(h.msg, h.phase.reason);
    ReportStrands(s.l, ReportName(h.msg, h.phase.reason), ReportOf(h.msg, h.phase.reason), step.entry, step.at);
  }

  /** A worker's report strands its run if and only if no record was on file under its name: the
      exact condition, since a record already there makes the report a success that does nothing. */
  lemma ReportSettlesIff(states: seq<State>, steps: seq<Step>, i: nat)
    requires Run(states, steps) && i < |steps| && steps[i].FileReport?
    ensures steps[i].id in states[i].floor && states[i].floor[steps[i].id].phase.Reporting?
    ensures var h := states[i].floor[steps[i].id];
      IsPending(states[i + 1].l, h.msg.uid) <==>
        IsPending(states[i].l, h.msg.uid) && ReportName(h.msg, h.phase.reason) in states[i].l.db.failures
  {
    hide ReportName, ReportOf, Apply, SysInv, Enabled, IsPending;
    Reachable(states, steps, i);
    LinkAt(states, steps, i);
    ReportSettles(states[i], steps[i]);
  }

  lemma ReportStrands(l: Ledger.State, name: string, report: Report, entry: Option<Result>, at: nat)
    requires RunsOk(l) && Ledger.Loaded(l, report.uid, entry) && Names(report, report.uid) && report.uid != ""
    ensures var m := Ledger.FileStep(l, name, report, entry, at);
      IsPending(m, report.uid) <==> IsPending(l, report.uid) && name in l.db.failures
  {
    if name !in l.db.failures {
      StrandSettles(l, report.uid, report.version, entry, at);
      FileOrder(l, name, report, entry, at);
    }
  }

  // ----- when every report is about its own dispatch -----

  /** The report says what the row or the envelope of one dispatch says. */
  ghost predicate Candid(l: Ledger.State, report: Report) {
    var e := DispatchEvent(report.uid, report.version);
    e in l.db.outbox && report.event == Labels.EventName(e)
  }

  /** No report filed under this name was about anything but the dispatch it names. */
  ghost predicate CandidSoFar(states: seq<State>, steps: seq<Step>, i: nat, name: string)
    requires i <= |steps| && |states| == |steps| + 1
  {
    forall k {:trigger steps[k]} :: 0 <= k < i && steps[k].Control? && steps[k].step.FileFailure? && steps[k].step.name == name
      ==> Candid(states[k].l, steps[k].step.report)
  }

  /** The record was filed by the dispatch whose name it bears. */
  ghost predicate FromDispatch(l: Ledger.State, f: Failure) {
    && f.name in l.known && f.report.uid in l.used && f.report.version == CREATED_VERSION
    && f.name == Labels.FailureName(FailureKey(DispatchEvent(f.report.uid, CREATED_VERSION), f.report.reason))
  }

  predicate LeavesRecords(step: Ledger.Step) {
    !(step.FileFailure? || step.Retry? || step.Resolve?)
  }

  lemma RecordsLeft(l: Ledger.State, step: Ledger.Step)
    ensures LeavesRecords(step) ==> Ledger.Apply(l, step).db.failures == l.db.failures
    ensures !step.FileFailure? ==> Ledger.Apply(l, step).db.failures.Keys == l.db.failures.Keys
  {
    hide Ledger.ClaimStep, Ledger.LegacyStep, Ledger.ExpireStep, Ledger.FileStep, CompleteRun;
    match step {
      case Claim(uid, who, request, entry, at) => ClaimLeaves(l, who, request, entry, at);
      case LegacyAuth(who, entry, at, timeout) => LegacyLeaves(l, who, entry, at, timeout);
      case ExpireRunning(run, at) => ExpireLeaves(l, run, at);
      case ExpirePending(c) => ExpireLeaves(l, c.run, c.at);
      case _ =>
    }
  }

  lemma LegacyLeaves(l: Ledger.State, who: Claimant, entry: Result, at: nat, timeout: int)
    ensures Ledger.LegacyStep(l, who, entry, at, timeout).db.failures == l.db.failures
  {
  }

  lemma ExpireLeaves(l: Ledger.State, r: Result, at: nat)
    ensures Ledger.ExpireStep(l, r, at).db.failures == l.db.failures
  {
  }

  /** Only a report makes a record. */
  lemma NewRecords(s: State, step: Step)
    requires Enabled(s, step) && !step.FileReport? && (step.Control? ==> !step.step.FileFailure?)
    ensures Apply(s, step).l.db.failures.Keys == s.l.db.failures.Keys
  {
    hide Ledger.Apply, Ledger.Enabled;
    if step.Control? {
      RecordsLeft(s.l, step.step);
    } else if step.AskClaim? {
      var h := s.floor[step.id];
      RecordsLeft(s.l, Ledger.Claim(h.msg.uid, h.who, RequestOf(h.msg, step.timeout), step.entry, step.at));
    }
  }

  lemma OtherRecords(l: Ledger.State, name: string, report: Report, entry: Option<Result>, at: nat, k: string)
    requires k !in l.db.failures && k in Ledger.FileStep(l, name, report, entry, at).db.failures
    ensures k == name
  {
  }

  lemma ControlRecordIsCandid(l: Ledger.State, step: Ledger.Step, name: string)
    requires OutboxOk(l) && Ledger.Enabled(l, step) && step.FileFailure?
    requires name !in l.db.failures && name in Ledger.Apply(l, step).db.failures
    requires step.name == name ==> Candid(l, step.report)
    ensures FromDispatch(Ledger.Apply(l, step), Ledger.Apply(l, step).db.failures[name])
  {
    hide Labels.RecordName, Labels.EventName, FromDispatch;
    OtherRecords(l, step.name, step.report, step.entry, step.at, name);
    assert RowOk(l, DispatchEvent(step.report.uid, step.report.version));
    FiledIsFromDispatch(l, name, step.report, step.entry, step.at);
  }

  lemma NewRecordIsCandid(s: State, step: Step, t: State, name: string)
    requires SysInv(s) && Enabled(s, step) && t == Apply(s, step)
    requires name !in s.l.db.failures && name in t.l.db.failures
    requires step.Control? && step.step.FileFailure? && step.step.name == name ==> Candid(s.l, step.step.report)
    ensures FromDispatch(t.l, t.l.db.failures[name])
  {
    hide FromDispatch, Candid, ReportName, ReportOf, Ledger.Apply, Ledger.Enabled, Ledger.FileStep;
    if step.Control? && step.step.FileFailure? {
      ControlRecordIsCandid(s.l, step.step, name);
    } else if step.FileReport? {
      var h := s.floor[step.id];
      FileReportEffect(s, step);
      assert HandlerOk(s.l, s.net, h) && MsgOk(s.l, h.msg);
      ReportIsNamed(h.msg, h.phase.reason);
      OtherRecords(s.l, ReportName(h.msg, h.phase.reason), ReportOf(h.msg, h.phase.reason), step.entry, step.at, name);
      ReportSpeaksForDispatch(h.msg, h.phase.reason);
      FiledIsFromDispatch(s.l, name, ReportOf(h.msg, h.phase.reason), step.entry, step.at);
    } else {
      NewRecords(s, step);
      assert false;
    }
  }

  lemma ReportSpeaksForDispatch(m: Msg, reason: Reason)
    ensures ReportOf(m, reason).event == Labels.EventName(m.event)
  {
  }

  lemma FiledIsFromDispatch(l: Ledger.State, name: string, report: Report, entry: Option<Result>, at: nat)
    requires name !in l.db.failures && report.uid in l.used && report.version == CREATED_VERSION
    requires report.event == Labels.EventName(DispatchEvent(report.uid, CREATED_VERSION))
    requires name == Labels.RecordName(report.event, report.reason)
    ensures var m := Ledger.FileStep(l, name, report, entry, at);
      name in m.db.failures && FromDispatch(m, m.db.failures[name])
  {
    hide Labels.RecordName, Labels.EventName;
    FileOrder(l, name, report, entry, at);
    assert Labels.FailureName(FailureKey(DispatchEvent(report.uid, CREATED_VERSION), report.reason)) == name;
  }

  lemma {:induction false} RecordsStayCandid(states: seq<State>, steps: seq<Step>, i: nat, name: string)
    requires Run(states, steps) && i < |states| && CandidSoFar(states, steps, i, name) && name in states[i].l.db.failures
    ensures FromDispatch(states[i].l, states[i].l.db.failures[name])
  {
    hide SysInv, Apply, Enabled, Candid;
    if i == 0 {
      assert false;
    } else {
      Reachable(states, steps, i - 1);
      LinkAt(states, steps, i - 1);
      if name in states[i - 1].l.db.failures {
        RecordsStayCandid(states, steps, i - 1, name);
        StepForward(states, steps, i - 1);
        Reachable(states, steps, i);
        SameName(states[i - 1], states[i], name);
      } else {
        assert steps[i - 1] == steps[i - 1];
        NewRecordIsCandid(states[i - 1], steps[i - 1], states[i], name);
      }
    }
  }

  lemma SameName(s: State, t: State, name: string)
    requires SysInv(s) && SysInv(t) && Evolves(s.l, t.l) && name in s.l.db.failures && FromDispatch(s.l, s.l.db.failures[name])
    ensures name in t.l.db.failures && FromDispatch(t.l, t.l.db.failures[name])
  {
    hide Labels.FailureName;
  }

  /** When every report filed under a dispatch's name came from that dispatch's own envelope or
      row, and UIDs are in the label alphabet, a recorded failure never costs a pending run its
      message either. */
  lemma CandidQueueExit(states: seq<State>, steps: seq<Step>, i: nat, p: nat)
    requires Run(states, steps) && i < |steps|
    requires p in states[i].net.queue && p !in states[i + 1].net.queue
    requires IsPending(states[i].l, states[i].net.queue[p].uid)
    requires forall u :: u in states[i].l.used ==> Labels.IsLabelUid(u)
    requires forall reason :: CandidSoFar(states, steps, i, ReportName(states[i].net.queue[p], reason))
    ensures AllowedLoss(states[i], steps[i], states[i].net.queue[p]) || StreamLoss(states[i], steps[i])
  {
    hide AllowedLoss, StreamLoss, ReportName, CandidSoFar, Apply, SysInv;
    SafeQueueExit(states, steps, i, p);
    var s, m := states[i], states[i].net.queue[p];
    if MisreportedLoss(s, steps[i], m) {
      var reason := s.floor[steps[i].id].phase.reason;
      RecordsStayCandid(states, steps, i, ReportName(m, reason));
      Reachable(states, steps, i);
      QueuedIsDispatched(s, p);
      CandidIsNotMisnamed(s.l, m, reason);
    }
  }

  lemma QueuedIsDispatched(s: State, p: nat)
    requires SysInv(s) && p in s.net.queue
    ensures var m := s.net.queue[p]; m.uid in s.l.used && m.event == DispatchEvent(m.uid, CREATED_VERSION)
    ensures forall k :: k in s.l.db.failures ==> s.l.db.failures[k].name == k
  {
    assert MsgOk(s.l, s.net.queue[p]);
  }

  lemma CandidIsNotMisnamed(l: Ledger.State, m: Msg, reason: Reason)
    requires m.uid in l.used && m.event == DispatchEvent(m.uid, CREATED_VERSION)
    requires forall u :: u in l.used ==> Labels.IsLabelUid(u)
    requires ReportName(m, reason) in l.db.failures && FromDispatch(l, l.db.failures[ReportName(m, reason)])
    requires l.db.failures[ReportName(m, reason)].name == ReportName(m, reason)
    ensures !Misnamed(l, ReportName(m, reason), m.uid)
  {
    var f := l.db.failures[ReportName(m, reason)];
    Labels.FailureNameInjective(FailureKey(m.event, reason), FailureKey(DispatchEvent(f.report.uid, CREATED_VERSION), f.report.reason));
  }

  /** A worker that discards a message as stale is right, now and for ever after. */
  lemma StaleIsTrue(states: seq<State>, steps: seq<Step>, i: nat, j: nat, id: nat)
    requires Run(states, steps) && i <= j < |states|
    requires id in states[i].floor && states[i].floor[id].phase == Answered(ClaimStale)
    ensures !IsPending(states[j].l, states[i].floor[id].msg.uid)
  {
    Reachable(states, steps, i);
    assert HandlerOk(states[i].l, states[i].net, states[i].floor[id]) && MsgOk(states[i].l, states[i].floor[id].msg);
    TerminalIsAbsorbing(states, steps, i, j, states[i].floor[id].msg.uid);
  }

  // ----- withdrawal -----

  /** A stored sequence always addresses a message of the row's own event, in the stream it was
      marked in, republications and late markings included; so if that is the present stream,
      what it still has there is the row's own message. */
  lemma SequencesAddressTheirOwn(states: seq<State>, steps: seq<Step>, i: nat, e: EventId)
    requires Run(states, steps) && i < |states| && e in states[i].l.db.outbox && states[i].l.db.outbox[e].publishedAt.Some?
    ensures var net := states[i].net; var sequence := states[i].l.db.outbox[e].publishedSeq;
      && e in net.marks && net.marks[e] <= net.era && Addresses(net, Position(net.marks[e], sequence), e)
      && (net.marks[e] == net.era && sequence in net.queue ==> net.queue[sequence].event == e)
  {
    Reachable(states, steps, i);
    assert MarkOk(states[i].l, states[i].net, e);
    assert Taken(states[i].net, Position(states[i].net.marks[e], states[i].l.db.outbox[e].publishedSeq));
  }

  /** Two rows that store one sequence are the same row if and only if they were marked in the same
      stream: the lookup a delivery advisory makes by sequence finds one dispatch of each stream. */
  lemma SequencesIdentifyRows(states: seq<State>, steps: seq<Step>, i: nat, e: EventId, d: EventId)
    requires Run(states, steps) && i < |states| && e in states[i].l.db.outbox && d in states[i].l.db.outbox
    requires var outbox := states[i].l.db.outbox;
      outbox[e].publishedAt.Some? && outbox[d].publishedAt.Some? && outbox[e].publishedSeq == outbox[d].publishedSeq
    ensures e in states[i].net.marks && d in states[i].net.marks
    ensures e == d <==> states[i].net.marks[e] == states[i].net.marks[d]
  {
    SequencesAddressTheirOwn(states, steps, i, e);
    SequencesAddressTheirOwn(states, steps, i, d);
  }

  /** A withdrawal takes the one message at its sequence. In the stream its row was marked in, that
      is the message of the very dispatch found stale, whose run is terminal or gone; so another
      dispatch's message is taken only when the stream has been recreated since. */
  lemma WithdrawalIsPrecise(states: seq<State>, steps: seq<Step>, i: nat, d: Stale, p: nat)
    requires Run(states, steps) && i < |steps| && steps[i] == SweepDrop(d) && p in states[i].net.queue
    ensures p !in states[i + 1].net.queue <==> p == d.row.publishedSeq
    ensures p in states[i + 1].net.queue ==> states[i + 1].net.queue[p] == states[i].net.queue[p]
    ensures d.era <= states[i].net.era
    ensures p == d.row.publishedSeq && d.era == states[i].net.era ==>
      states[i].net.queue[p].event == d.row.event && IsOver(states[i].l, states[i].net.queue[p].uid)
  {
    hide Inv, RowsOk;
    Reachable(states, steps, i);
    LinkAt(states, steps, i);
    assert SweepOk(states[i].l, states[i].net, d);
    assert Taken(states[i].net, Position(d.era, d.row.publishedSeq));
    if p == d.row.publishedSeq {
      WithdrawnIsOver(states[i].l, states[i].net, d);
    }
  }

  // ----- expiry -----

  /** The expiry applies: the run is still what the scan loaded. */
  ghost predicate ExpiryApplies(l: Ledger.State, run: Result) {
    !run.status.IsTerminal() && Guard(l.db, run)
  }

  /** A pending run whose row nobody removed is expired only when its dispatch was published; and,
      removed or not, if every publication for it happened within the configured grace of its
      creation, only when the broker holds no message for it any more. */
  lemma PendingExpiryIsSafe(states: seq<State>, steps: seq<Step>, i: nat, c: Ledger.Candidate)
    requires Run(states, steps) && i < |steps| && steps[i] == Control(Ledger.ExpirePending(c))
    requires ExpiryApplies(states[i].l, c.run)
    ensures var e := DispatchEvent(c.run.uid, c.run.version); var outbox := states[i].l.db.outbox; var net := states[i].net;
      e !in states[i].l.purged ==>
        && e in outbox && outbox[e].publishedAt.Some? && e in net.marks
        && Addresses(net, Position(net.marks[e], outbox[e].publishedSeq), e)
    ensures (forall p :: p in states[i].net.log && states[i].net.log[p].uid == c.run.uid ==>
               states[i].net.log[p].at <= c.run.createdAt + states[i].l.cfg.pendingGrace)
        ==> forall p :: p in states[i].net.queue ==> states[i].net.queue[p].uid != c.run.uid
  {
    hide CapsOk, FailuresOk, FloorOk, SweepOk, MsgOk;
    Reachable(states, steps, i);
    var s := states[i];
    assert ScanOk(s.l, c);
    GuardMeansUnchanged(s.l, c.run);
    var e := DispatchEvent(c.run.uid, c.run.version);
    assert Awaited(s.l, c.run.uid) && RunOk(s.l, c.run);
    assert e in s.l.db.outbox ==> MarkOk(s.l, s.net, e);
    forall p | p in s.net.queue ensures Here(s.net, p) in s.net.log && s.net.log[Here(s.net, p)] == s.net.queue[p] {}
  }

  /** With at least the default grace, a running run is expired only strictly after every
      capability ever issued for it, before or after, has expired. */
  lemma LeaseOutlivesCapabilities(states: seq<State>, steps: seq<Step>, i: nat, j: nat, run: Result, at: nat, c: Capability)
    requires Run(states, steps) && i < |steps| && j < |states| && steps[i] == Control(Ledger.ExpireRunning(run, at))
    requires c in states[j].l.issued && c.uid == run.uid && states[i].l.cfg.leaseGrace >= ARTIFACT_UPLOAD_GRACE
    ensures c.expiry < states[i].l.clock
  {
    hide NetOk, FloorOk, OutboxOk, FailuresOk, ScansOk, RunEvolves;
    var k := if i < j then j else i;
    Forward(states, steps, i, k);
    Forward(states, steps, j, k);
    Reachable(states, steps, k);
    LinkAt(states, steps, i);
    var l := states[k].l;
    assert c in l.issued;
    var r :| r in l.stored && SpeaksFor(c, r);
    assert run in l.stored && RunOk(l, r) && RunOk(l, run) && Consistent(r, run);
  }

  /** A run taken through the legacy Auth call carries no deadline and its lease never elapses. */
  lemma LegacyRunsAreNotExpired(states: seq<State>, steps: seq<Step>, i: nat, run: Result, at: nat, c: Capability)
    requires Run(states, steps) && i < |states| && run in states[i].l.stored
    requires c in states[i].l.issued && c.deadline.None? && c.uid == run.uid
    ensures !LeaseElapsed(run, states[i].l.cfg.leaseGrace, at)
  {
    Reachable(states, steps, i);
    var l := states[i].l;
    var r :| r in l.stored && SpeaksFor(c, r);
    assert RunOk(l, r) && RunOk(l, run) && Consistent(r, run);
  }

  // ----- dead letters -----

  /** A record stays what it was, whatever is reported again under its name and however reports
      interleave; and if it was filed about a run that existed, at no version in particular or at
      the one the run was created at, that run is not pending, then or ever after. */
  lemma FailureIsSettled(states: seq<State>, steps: seq<Step>, i: nat, j: nat, k: string)
    requires Run(states, steps) && i <= j < |states| && k in states[i].l.db.failures
    ensures k in states[j].l.db.failures
    ensures var f := states[i].l.db.failures[k]; var g := states[j].l.db.failures[k];
      && g.name == k && g.report == f.report && f.rev <= g.rev
      && (k in states[i].l.known && Names(f.report, f.report.uid) ==> !IsPending(states[j].l, f.report.uid))
  {
    Forward(states, steps, i, j);
    Reachable(states, steps, i);
    Reachable(states, steps, j);
    var f := states[i].l.db.failures[k];
    assert f in states[j].l.filed && FailureOk(states[j].l, f);
    assert FailureConsistent(f, states[j].l.db.failures[k]);
  }

  /** The step files a report under this name, from the control plane or from a worker. */
  ghost predicate Files(s: State, step: Step, name: string) {
    || (step.Control? && step.step.FileFailure? && step.step.name == name)
    || (step.FileReport? && step.id in s.floor && s.floor[step.id].phase.Reporting?
        && ReportName(s.floor[step.id].msg, s.floor[step.id].phase.reason) == name)
  }

  lemma FilingRecords(s: State, step: Step, t: State, name: string)
    requires Link(s, step, t) && Files(s, step, name)
    ensures name in t.l.db.failures
  {
    hide ReportName, ReportOf, Apply, Enabled;
    if step.FileReport? {
      FilingIsStep(s, step, t);
    } else {
      ControlLink(s, step, t);
      FiledOnRecord(s.l, name, step.step.report, step.step.entry, step.step.at);
    }
  }

  lemma FilingIsStep(s: State, step: Step, t: State)
    requires Link(s, step, t) && step.FileReport?
    ensures step.id in s.floor && s.floor[step.id].phase.Reporting?
    ensures var h := s.floor[step.id]; var name := ReportName(h.msg, h.phase.reason);
      && t.l == Ledger.FileStep(s.l, name, ReportOf(h.msg, h.phase.reason), step.entry, step.at)
      && t == SetPhase(s.(l := t.l), step.id, Filed(h.phase.reason)) && name in t.l.db.failures
  {
    hide ReportName, ReportOf, Ledger.FileStep, Apply;
    FileReportIsStep(s, step.id, step.entry, step.at);
    FileReportEffect(s, step);
  }

  lemma ControlLink(s: State, step: Step, t: State)
    requires Link(s, step, t) && step.Control?
    ensures Ledger.Enabled(s.l, step.step) && t == s.(l := Ledger.Apply(s.l, step.step))
  {
    hide Ledger.Apply, Ledger.Enabled;
  }

  lemma FilingAgain(s: State, step: Step, t: State, name: string)
    requires Link(s, step, t) && Files(s, step, name) && name in s.l.db.failures
    ensures t == if step.FileReport? then SetPhase(s, step.id, Filed(s.floor[step.id].phase.reason)) else s
  {
    hide ReportName, ReportOf, Apply, Enabled, Link;
    if step.FileReport? {
      FilingIsStep(s, step, t);
    } else {
      ControlLink(s, step, t);
    }
  }

  /** A report repeated under a name already on file, whoever filed the first and whoever repeats
      it, changes nothing but what its own handler knows: that the failure is on record. */
  lemma ReportIsIdempotent(states: seq<State>, steps: seq<Step>, i: nat, j: nat, name: string)
    requires Run(states, steps) && i < j < |steps|
    requires Files(states[i], steps[i], name) && Files(states[j], steps[j], name)
    ensures states[j + 1] == if steps[j].FileReport? then
                               SetPhase(states[j], steps[j].id, Filed(states[j].floor[steps[j].id].phase.reason))
                             else states[j]
  {
    hide SysInv, Files, Link, RunEvolves, RowEvolves, Apply;
    LinkAt(states, steps, i);
    LinkAt(states, steps, j);
    FilingRecords(states[i], steps[i], states[i + 1], name);
    Forward(states, steps, i + 1, j);
    FilingAgain(states[j], steps[j], states[j + 1], name);
  }

  /** Any number of retries and resolutions of one failure leave at most one retry run, with its
      outbox row, and the failure is linked to it. */
  lemma RetryAtMostOnce(states: seq<State>, steps: seq<Step>, i: nat, r: Result, q: Result, k: string)
    requires Run(states, steps) && i < |states|
    requires r in states[i].l.stored && q in states[i].l.stored && r.retryOf == Some(k) == q.retryOf
    ensures r.uid == q.uid && k in states[i].l.db.failures && states[i].l.db.failures[k].retry == r.uid
    ensures var e := DispatchEvent(r.uid, CREATED_VERSION);
      e in states[i].l.routed && (e !in states[i].l.purged ==> e in states[i].l.db.outbox)
  {
    Reachable(states, steps, i);
    assert RetryLinked(states[i].l, r) && RetryLinked(states[i].l, q);
    assert RoutedOk(states[i].l, DispatchEvent(r.uid, CREATED_VERSION));
  }

  /** A retry keeps the placement: its dispatch is routed to the runner of a committed record of the
      run its failure names, the new run is on that runner as long as it is unclaimed and so is its
      row; and unless that run was on no runner, a relay that holds the row may publish it. */
  lemma RetryKeepsPlacement(states: seq<State>, steps: seq<Step>, i: nat, r: Result)
    requires Run(states, steps) && i < |states| && r in states[i].l.stored && r.retryOf.Some?
    ensures r.retryOf.value in states[i].l.db.failures
    ensures var s := states[i]; var e := EventId(r.uid, 1);
      exists q :: q in s.l.stored && q.uid == s.l.db.failures[r.retryOf.value].report.uid
        && (r.status == Pending ==> r.runner == q.runner)
        && (e in s.l.db.outbox ==> s.l.db.outbox[e].runner == q.runner)
        && (q.runner != "" && e in s.net.held ==> Enabled(s, RelayPublish(e, None)))
  {
    hide NetOk, FloorOk, CapsOk, ScansOk, Consistent, FailureOk;
    Reachable(states, steps, i);
    var l := states[i].l;
    var e := EventId(r.uid, 1);
    assert RetryLinked(l, r) && RunOk(l, r) && Dispatched(l, r);
    assert RowOk(l, e);
    assert RoutedAs(l, e, l.db.failures[r.retryOf.value].report.uid);
  }

  ghost predicate IsRetryOf(l: Ledger.State, r: Result, parent: string) {
    r.retryOf.Some? && r.retryOf.value in l.db.failures && l.db.failures[r.retryOf.value].report.uid == parent
  }

  /** `child` was created as the retry of a failure of `parent`. */
  ghost predicate RetriedFrom(l: Ledger.State, parent: string, child: string) {
    exists r :: r in l.stored && r.uid == child && IsRetryOf(l, r, parent)
  }

  /** `uids` is a chain of retries: each run was created for a failure of the one before. */
  ghost predicate RetryChain(l: Ledger.State, uids: seq<string>) {
    |uids| > 0 && forall n :: 0 < n < |uids| ==> RetriedFrom(l, uids[n - 1], uids[n])
  }

  lemma {:induction false} ChainKeepsSnapshot(l: Ledger.State, uids: seq<string>, n: nat)
    requires RunsOk(l) && FailuresOk(l) && RetryChain(l, uids) && uids[0] in l.origin && n < |uids|
    ensures uids[n] in l.origin && l.origin[uids[n]] == l.origin[uids[0]]
  {
    if n > 0 {
      ChainKeepsSnapshot(l, uids, n - 1);
      assert RetriedFrom(l, uids[n - 1], uids[n]);
      var r :| r in l.stored && r.uid == uids[n] && IsRetryOf(l, r, uids[n - 1]);
      assert RetryLinked(l, r) && RunOk(l, r);
    }
  }

  /** Whatever happens to scenarios in between, every claim on any run of a retry chain hands
      out the probe captured when the first run of the chain was created. */
  lemma RetryIsFaithful(states: seq<State>, steps: seq<Step>, i: nat, j: nat, uids: seq<string>,
                        name: string, runner: string, stamped: bool, c: Capability)
    requires Run(states, steps) && i < j < |states| && RetryChain(states[j].l, uids)
    requires steps[i] == Control(Ledger.Create(uids[0], name, runner, stamped))
    requires c in states[j].l.issued && c.uid == uids[|uids| - 1]
    ensures name in states[i].l.scenarios && c.probe == NewExecutionSnapshot(states[i].l.scenarios[name])
  {
    hide NetOk, FloorOk, OutboxOk, ScansOk, Consistent;
    Forward(states, steps, i + 1, j);
    Reachable(states, steps, j);
    ChainKeepsSnapshot(states[j].l, uids, |uids| - 1);
    var r :| r in states[j].l.stored && SpeaksFor(c, r);
    assert RunOk(states[j].l, r);
  }

  // ----- relays -----

  /** The stored attempt count covers every publication begun, relay crashes included, unless the
      row that counted was removed. */
  lemma AttemptsCoverPublications(states: seq<State>, steps: seq<Step>, i: nat, e: EventId)
    requires Run(states, steps) && i < |states| && e in states[i].l.db.outbox && e !in states[i].l.purged
    ensures Begun(states[i].net, e) <= states[i].l.db.outbox[e].attempts
  {
    Reachable(states, steps, i);
  }
}
