/**
 What every step of the system does to every stored value, field by field: which steps change it,
 exactly when, and what it then is. `Safety` says what follows for whole runs.
 */
module History {
  import opened Domain
  import opened Options
  import opened Tables
  import Ledger
  import opened LedgerInv
  import opened LedgerProof
  import opened System
  import opened SystemProof
  import opened Safety
  import opened Claims
  import Labels
  import C = Records

  // ----- the ledger's part of a step -----

  /** What a step asks of the control plane: itself, the request a worker makes of a message, or the
      report it files about one. */
  ghost function Asked(s: State, step: Step): Option<Ledger.Step> {
    match step
    case Control(c) => Some(c)
    case AskClaim(id, entry, at, timeout, heard) =>
      if id !in s.floor then None
      else
        var h := s.floor[id];
        Some(Ledger.Claim(h.msg.uid, h.who, ClaimRequest(Some(h.msg.event), h.msg.version, timeout), entry, at))
    case FileReport(id, entry, at) =>
      if id !in s.floor || !s.floor[id].phase.Reporting? then None
      else
        var h := s.floor[id]; var reason := h.phase.reason;
        Some(Ledger.FileFailure(Labels.FailureName(FailureKey(h.msg.event, reason)),
                                Report(Labels.EventName(h.msg.event), reason, h.msg.uid, h.msg.version), entry, at))
    case _ => None
  }

  // ----- runs -----

  /** The step is one that writes the record of `uid`, and the record is still the one it was
      decided on. */
  ghost predicate Writes(l: Ledger.State, step: Ledger.Step, uid: string)
    requires uid in l.db.results
  {
    var r := l.db.results[uid];
    match step
    case Claim(u, who, request, entry, at) => entry == Some(r) && C.MayBeTaken(r, who, request)
    case LegacyAuth(who, entry, at, timeout) => entry == r
    case UpdateStatus(token, version, entry, at, outcome) => entry == r
    case ExpireRunning(entry, at) => entry == r
    case ExpirePending(c) => c.run == r
    case FileFailure(name, report, entry, at) =>
      name !in l.db.failures && entry == Some(r) && r.status == Pending && (report.version == 0 || report.version == r.version)
    case StrandUnplaced(event, entry, at) =>
      entry == Some(r) && r.status == Pending && (event.version == 0 || event.version == r.version)
    case _ => false
  }

  /** What it makes of the record. */
  ghost predicate Written(l: Ledger.State, step: Ledger.Step, before: Result, after: Result) {
    match step
    case Claim(u, who, request, entry, at) => C.Taken(before, after, who, request, at, l.cfg.maxRunDuration)
    case LegacyAuth(who, entry, at, timeout) => C.TakenByAuth(before, after, who, at)
    case UpdateStatus(token, version, entry, at, outcome) => C.Finished(before, after, Completed, outcome, at)
    case ExpireRunning(entry, at) => C.TimedOut(before, after, at)
    case ExpirePending(c) => C.TimedOut(before, after, c.at)
    case FileFailure(name, report, entry, at) => C.Stranded(before, after, at)
    case StrandUnplaced(event, entry, at) => C.Stranded(before, after, at)
    case _ => false
  }

  ghost predicate RunMoves(l: Ledger.State, step: Ledger.Step, m: Ledger.State, uid: string) {
    uid in l.db.results && uid in m.db.results ==>
      if Writes(l, step, uid) then Written(l, step, l.db.results[uid], m.db.results[uid])
      else m.db.results[uid] == l.db.results[uid]
  }

  lemma ClaimMoves(l: Ledger.State, step: Ledger.Step, uid: string)
    requires Inv(l) && Ledger.Enabled(l, step) && step.Claim?
    ensures RunMoves(l, step, Ledger.Apply(l, step), uid)
  {
    hide CapsOk, OutboxOk, FailuresOk, ScansOk, AuthorizeRun, Adjudicate, Consistent, C.Taken, C.MayBeTaken;
    if step.entry.Some? {
      var r := step.entry.value;
      assert RunOk(l, r);
      if r.status == Pending {
        TakeFields(r, step.who, step.request, step.at, l.cfg.maxRunDuration);
      } else {
        NotPendingNotTaken(l, r, step.who, step.request, step.at);
      }
      if Guard(l.db, r) {
        GuardMeansUnchanged(l, r);
      }
    }
  }

  lemma AuthMoves(l: Ledger.State, step: Ledger.Step, uid: string)
    requires Inv(l) && Ledger.Enabled(l, step) && step.LegacyAuth?
    ensures RunMoves(l, step, Ledger.Apply(l, step), uid)
  {
    hide CapsOk, OutboxOk, FailuresOk, ScansOk, RunOk, LegacyCapability;
    if Guard(l.db, step.run) {
      GuardMeansUnchanged(l, step.run);
    }
  }

  lemma ReportMoves(l: Ledger.State, step: Ledger.Step, uid: string)
    requires Inv(l) && Ledger.Enabled(l, step) && step.UpdateStatus?
    ensures RunMoves(l, step, Ledger.Apply(l, step), uid)
  {
    hide CapsOk, OutboxOk, FailuresOk, ScansOk, RunOk;
    if Guard(l.db, step.run) {
      GuardMeansUnchanged(l, step.run);
    }
  }

  lemma ExpiryMoves(l: Ledger.State, run: Result, at: nat, uid: string)
    requires RunsOk(l) && run in l.stored && !run.status.IsTerminal()
    ensures var m := Ledger.ExpireStep(l, run, at);
      uid in l.db.results && uid in m.db.results ==>
        if l.db.results[uid] == run then C.TimedOut(run, m.db.results[uid], at) else m.db.results[uid] == l.db.results[uid]
  {
    hide RunOk;
    if Guard(l.db, run) {
      GuardMeansUnchanged(l, run);
    }
  }

  lemma StrandMoves(l: Ledger.State, u: string, version: nat, entry: Option<Result>, at: nat, uid: string)
    requires Inv(l) && Ledger.Loaded(l, u, entry)
    ensures var m := Ledger.StrandStep(l, u, version, entry, at);
      uid in l.db.results && uid in m.db.results ==>
        var r := l.db.results[uid];
        if entry == Some(r) && r.status == Pending && (version == 0 || version == r.version)
        then C.Stranded(r, m.db.results[uid], at) else m.db.results[uid] == r
  {
    hide CapsOk, OutboxOk, FailuresOk, ScansOk;
    if entry.Some? {
      assert RunOk(l, entry.value);
      if Guard(l.db, entry.value) {
        GuardMeansUnchanged(l, entry.value);
      }
    }
  }

  lemma FilingMoves(l: Ledger.State, step: Ledger.Step, uid: string)
    requires Inv(l) && Ledger.Enabled(l, step) && step.FileFailure?
    ensures RunMoves(l, step, Ledger.Apply(l, step), uid)
  {
    hide CapsOk, OutboxOk, FailuresOk, ScansOk, RunsOk, Labels.RecordName, C.Stranded, Ledger.StrandStep;
    StrandMoves(l, step.report.uid, step.report.version, step.entry, step.at, uid);
    if step.name !in l.db.failures {
      FileOrder(l, step.name, step.report, step.entry, step.at);
    }
  }

  lemma RestMoves(l: Ledger.State, step: Ledger.Step, uid: string)
    requires Inv(l) && Ledger.Enabled(l, step)
    requires step.EditScenario? || step.DropScenario? || step.Create? || step.Delete? || step.ScanPending? || step.Reenqueue?
          || step.RemoveRow? || step.Retry? || step.Resolve?
    ensures RunMoves(l, step, Ledger.Apply(l, step), uid)
  {
    hide CapsOk, OutboxOk, FailuresOk, ScansOk, Consistent, NewExecutionSnapshot, NewDispatchOutboxEntry;
    hide Ledger.Enabled;
    RestIsEnabled(l, step);
    if uid in l.db.results {
      assert RunOk(l, l.db.results[uid]);
    }
  }

  lemma RestIsEnabled(l: Ledger.State, step: Ledger.Step)
    requires Ledger.Enabled(l, step)
    ensures step.Create? || step.Retry? ==> step.uid !in l.used
  {
  }

  lemma LedgerRunMoves(l: Ledger.State, step: Ledger.Step, uid: string)
    requires Inv(l) && Ledger.Enabled(l, step)
    ensures RunMoves(l, step, Ledger.Apply(l, step), uid)
  {
    match step {
      case Claim(u, who, request, entry, at) => ClaimMoves(l, step, uid);
      case LegacyAuth(who, run, at, timeout) => AuthMoves(l, step, uid);
      case UpdateStatus(token, version, run, at, outcome) => ReportMoves(l, step, uid);
      case ExpireRunning(run, at) =>
        hide Inv, C.TimedOut, Ledger.ExpireStep;
        InvRuns(l);
        ExpiryMoves(l, run, at, uid);
      case ExpirePending(c) =>
        assert ScanOk(l, c);
        hide Inv, C.TimedOut, Ledger.ExpireStep;
        InvRuns(l);
        ExpiryMoves(l, c.run, c.at, uid);
      case FileFailure(name, report, entry, at) => FilingMoves(l, step, uid);
      case StrandUnplaced(event, entry, at) =>
        hide Inv, C.Stranded, Ledger.StrandStep;
        StrandMoves(l, event.uid, event.version, entry, at, uid);
      case _ => RestMoves(l, step, uid);
    }
  }

  lemma InvRuns(l: Ledger.State)
    requires Inv(l)
    ensures RunsOk(l)
  {
  }

  // ----- runs that come and go -----

  /** The failure is as it was loaded, has no retry, names a run, and that run had something to execute. */
  ghost predicate Retries(l: Ledger.State, f: Failure, original: Result) {
    && f.name in l.db.failures && l.db.failures[f.name] == f && f.retry == "" && f.report.uid != ""
    && !C.NothingToRun(original.snapshot)
  }

  ghost predicate RunComes(l: Ledger.State, step: Ledger.Step, m: Ledger.State, uid: string) {
    uid !in l.db.results ==>
      match step
      case Create(u, name, runner, stamped) =>
        && (uid in m.db.results <==> u == uid)
        && (u == uid ==> name in l.scenarios && C.MayRun(l.scenarios[name])
                         && C.Made(m.db.results[uid], uid, l.scenarios[name], runner, stamped, l.clock))
      case Retry(f, original, u, resolve) =>
        && (uid in m.db.results <==> u == uid && Retries(l, f, original))
        && (uid in m.db.results ==> C.RetryOf(m.db.results[uid], uid, original, f.name, l.clock))
      case _ => uid !in m.db.results
  }

  ghost predicate RunGoes(l: Ledger.State, step: Ledger.Step, m: Ledger.State, uid: string) {
    uid in l.db.results ==>
      && (uid !in m.db.results <==> step == Ledger.Delete(uid))
      && (uid !in m.db.results ==> uid in m.db.deleted && m.db.deleted[uid] == l.db.results[uid])
  }

  lemma CreatedFields(l: Ledger.State, step: Ledger.Step)
    requires Ledger.Enabled(l, step) && step.Create?
    ensures step.name in l.scenarios && C.MayRun(l.scenarios[step.name])
    ensures var m := Ledger.Apply(l, step);
      && step.uid in m.db.results && m.db.results.Keys == l.db.results.Keys + {step.uid}
      && C.Made(m.db.results[step.uid], step.uid, l.scenarios[step.name], step.runner, step.stamped, l.clock)
  {
  }

  lemma RetriedFields(l: Ledger.State, step: Ledger.Step)
    requires FailuresOk(l) && Ledger.Enabled(l, step) && step.Retry?
    ensures var m := Ledger.Apply(l, step);
      if Retries(l, step.failure, step.original) then
        && step.uid in m.db.results && m.db.results.Keys == l.db.results.Keys + {step.uid}
        && C.RetryOf(m.db.results[step.uid], step.uid, step.original, step.failure.name, l.clock)
      else m == l
  {
    if FailureGuard(l.db, step.failure) {
      FailureGuardMeansUnchanged(l, step.failure);
    }
  }

  lemma WritesKeepRuns(l: Ledger.State, step: Ledger.Step)
    ensures !step.Create? && !step.Retry? && !step.Delete? ==> Ledger.Apply(l, step).db.results.Keys == l.db.results.Keys
    ensures step.Delete? ==> Ledger.Apply(l, step).db.results.Keys == l.db.results.Keys - {step.uid}
    ensures step.Delete? && step.uid in l.db.results ==>
      step.uid in Ledger.Apply(l, step).db.deleted && Ledger.Apply(l, step).db.deleted[step.uid] == l.db.results[step.uid]
  {
    hide Ledger.ClaimStep, Ledger.FileStep, Ledger.StrandStep, Ledger.LegacyStep, Ledger.ExpireStep, CompleteRun;
    match step {
      case Claim(u, who, request, entry, at) => ClaimKeepsRuns(l, who, request, entry, at);
      case LegacyAuth(who, run, at, timeout) => AuthKeepsRuns(l, who, run, at, timeout);
      case ExpireRunning(run, at) => ExpiryKeepsRuns(l, run, at);
      case ExpirePending(c) => ExpiryKeepsRuns(l, c.run, c.at);
      case FileFailure(name, report, entry, at) => FilingKeepsRuns(l, name, report, entry, at);
      case StrandUnplaced(event, entry, at) => StrandKeepsRuns(l, event.uid, event.version, entry, at);
      case _ =>
    }
  }

  lemma WriteKeepsKeys(l: Ledger.State, next: Result)
    ensures Ledger.Write(l, next).db.results.Keys == l.db.results.Keys
  {
  }

  lemma ClaimKeepsRuns(l: Ledger.State, who: Claimant, request: ClaimRequest, entry: Option<Result>, at: nat)
    ensures Ledger.ClaimStep(l, who, request, entry, at).db.results.Keys == l.db.results.Keys
  {
    hide Ledger.Write, Adjudicate, AuthorizeRun, FailRun;
    forall next: Result ensures Ledger.Write(l, next).db.results.Keys == l.db.results.Keys { WriteKeepsKeys(l, next); }
  }

  lemma AuthKeepsRuns(l: Ledger.State, who: Claimant, run: Result, at: nat, timeout: int)
    ensures Ledger.LegacyStep(l, who, run, at, timeout).db.results.Keys == l.db.results.Keys
  {
    hide Ledger.Write, LegacyCapability;
    WriteKeepsKeys(l, LegacyTake(run, who, at));
  }

  lemma ExpiryKeepsRuns(l: Ledger.State, run: Result, at: nat)
    ensures Ledger.ExpireStep(l, run, at).db.results.Keys == l.db.results.Keys
  {
    hide RetireUnpublished, ExpireResult;
    ExpiryKeepsUid(run, at);
  }

  lemma ExpiryKeepsUid(run: Result, at: nat)
    ensures ExpireResult(run, at).uid == run.uid && ExpireResult(run, at).version == run.version
  {
  }

  lemma StrandKeepsRuns(l: Ledger.State, u: string, version: nat, entry: Option<Result>, at: nat)
    ensures Ledger.StrandStep(l, u, version, entry, at).db.results.Keys == l.db.results.Keys
  {
  }

  lemma FilingKeepsRuns(l: Ledger.State, name: string, report: Report, entry: Option<Result>, at: nat)
    ensures Ledger.FileStep(l, name, report, entry, at).db.results.Keys == l.db.results.Keys
  {
    hide Ledger.StrandStep;
    if name !in l.db.failures {
      StrandKeepsRuns(l, report.uid, report.version, entry, at);
      FileOrder(l, name, report, entry, at);
    }
  }

  lemma LedgerRunsComeAndGo(l: Ledger.State, step: Ledger.Step, uid: string)
    requires Inv(l) && Ledger.Enabled(l, step)
    ensures RunComes(l, step, Ledger.Apply(l, step), uid) && RunGoes(l, step, Ledger.Apply(l, step), uid)
  {
    hide Inv, Ledger.Apply, C.Made, C.RetryOf, C.MayRun, Retries;
    InvFailures(l);
    if step.Create? {
      CreatedFields(l, step);
    } else if step.Retry? {
      RetriedFields(l, step);
    } else {
      WritesKeepRuns(l, step);
    }
  }

  lemma InvFailures(l: Ledger.State)
    requires Inv(l)
    ensures FailuresOk(l)
  {
  }

  // ----- outbox rows -----

  /** The ledger step writes the row of `e` anew, for this run. */
  ghost predicate WritesRow(l: Ledger.State, step: Ledger.Step, e: EventId) {
    match step
    case Create(u, name, runner, stamped) => e == EventId(u, 1) && runner != ""
    case Retry(f, original, u, resolve) => e == EventId(u, 1) && Retries(l, f, original)
    case Reenqueue(c) => e == EventId(c.run.uid, c.run.version)
    case _ => false
  }

  ghost predicate RowComes(l: Ledger.State, step: Ledger.Step, m: Ledger.State, e: EventId) {
    e !in l.db.outbox ==>
      && (e in m.db.outbox <==> WritesRow(l, step, e))
      && (e in m.db.outbox ==>
            if step.Reenqueue? then C.FreshRow(m.db.outbox[e], step.candidate.run, l.clock)
            else e.uid in m.db.results && C.FreshRow(m.db.outbox[e], m.db.results[e.uid], l.clock))
  }

  ghost predicate RowGoes(l: Ledger.State, step: Ledger.Step, m: Ledger.State, e: EventId) {
    e in l.db.outbox ==> (e !in m.db.outbox <==> step == Ledger.RemoveRow(e))
  }

  /** The expiry applies to the run whose unpublished row this is. */
  ghost predicate Expires(l: Ledger.State, run: Result, row: Row) {
    run.uid in l.db.results && l.db.results[run.uid] == run && row.uid == run.uid && C.Outstanding(row)
  }

  ghost predicate RowMoves(l: Ledger.State, step: Ledger.Step, m: Ledger.State, e: EventId) {
    e in l.db.outbox && e in m.db.outbox ==>
      var before := l.db.outbox[e]; var after := m.db.outbox[e];
      match step
      case ExpireRunning(run, at) => if Expires(l, run, before) then C.RowExpired(before, after, at) else after == before
      case ExpirePending(c) => if Expires(l, c.run, before) then C.RowExpired(before, after, c.at) else after == before
      case _ => after == before
  }

  ghost predicate RowHistory(l: Ledger.State, step: Ledger.Step, m: Ledger.State, e: EventId) {
    RowComes(l, step, m, e) && RowGoes(l, step, m, e) && RowMoves(l, step, m, e)
  }

  lemma ExpiryMovesRow(l: Ledger.State, run: Result, at: nat, e: EventId)
    requires RunsOk(l) && run in l.stored && !run.status.IsTerminal()
    ensures var m := Ledger.ExpireStep(l, run, at);
      && (e in m.db.outbox <==> e in l.db.outbox)
      && (e in l.db.outbox ==>
            if Expires(l, run, l.db.outbox[e]) then C.RowExpired(l.db.outbox[e], m.db.outbox[e], at)
            else m.db.outbox[e] == l.db.outbox[e])
  {
    hide RunOk, Consistent;
    if Guard(l.db, run) {
      GuardMeansUnchanged(l, run);
    }
  }

  lemma CreationWritesRow(l: Ledger.State, step: Ledger.Step, e: EventId)
    requires OutboxOk(l) && ScenariosOk(l) && Ledger.Enabled(l, step) && step.Create?
    ensures RowHistory(l, step, Ledger.Apply(l, step), e)
  {
    NewEvent(l, step.uid);
  }

  lemma RetryWritesRow(l: Ledger.State, step: Ledger.Step, e: EventId)
    requires OutboxOk(l) && FailuresOk(l) && Ledger.Enabled(l, step) && step.Retry?
    ensures RowHistory(l, step, Ledger.Apply(l, step), e)
  {
    hide OutboxOk;
    NewEvent(l, step.uid);
    if FailureGuard(l.db, step.failure) {
      FailureGuardMeansUnchanged(l, step.failure);
    }
  }

  lemma ReenqueueWritesRow(l: Ledger.State, step: Ledger.Step, e: EventId)
    requires step.Reenqueue?
    ensures RowHistory(l, step, Ledger.Apply(l, step), e)
  {
  }

  lemma RemovalTakesRow(l: Ledger.State, step: Ledger.Step, e: EventId)
    requires step.RemoveRow?
    ensures RowHistory(l, step, Ledger.Apply(l, step), e)
  {
  }

  lemma LedgerRowHistory(l: Ledger.State, step: Ledger.Step, e: EventId)
    requires Inv(l) && Ledger.Enabled(l, step)
    ensures RowHistory(l, step, Ledger.Apply(l, step), e)
  {
    hide RunsOk, CapsOk, FailuresOk, OutboxOk, RowHistory;
    match step {
      case Create(u, name, runner, stamped) => CreationWritesRow(l, step, e);
      case Retry(f, original, u, resolve) => RetryWritesRow(l, step, e);
      case ExpireRunning(run, at) =>
        hide Inv, C.RowExpired, Ledger.ExpireStep, Expires;
        ExpiryHistory(l, step, run, at, e);
      case ExpirePending(c) =>
        assert ScanOk(l, c);
        hide Inv, C.RowExpired, Ledger.ExpireStep, Expires;
        ExpiryHistory(l, step, c.run, c.at, e);
      case Reenqueue(c) => ReenqueueWritesRow(l, step, e);
      case RemoveRow(event) => RemovalTakesRow(l, step, e);
      case _ =>
        hide Inv, Ledger.Apply, C.FreshRow, Retries;
        QuietHistory(l, step, e);
    }
  }

  lemma ExpiryHistory(l: Ledger.State, step: Ledger.Step, run: Result, at: nat, e: EventId)
    requires Inv(l) && run in l.stored && !run.status.IsTerminal()
    requires step == Ledger.ExpireRunning(run, at) || (step.ExpirePending? && step.candidate.run == run && step.candidate.at == at)
    ensures RowHistory(l, step, Ledger.Apply(l, step), e)
  {
    hide Inv, C.RowExpired, Ledger.ExpireStep, Expires;
    InvRuns(l);
    ExpiryMovesRow(l, run, at, e);
  }

  lemma QuietHistory(l: Ledger.State, step: Ledger.Step, e: EventId)
    requires LeavesOutbox(step)
    ensures RowHistory(l, step, Ledger.Apply(l, step), e)
  {
    hide Ledger.Apply, C.FreshRow, Retries;
    OutboxLeft(l, step);
  }

  // ----- dead-letter records -----

  ghost predicate RecordHistory(l: Ledger.State, step: Ledger.Step, m: Ledger.State, k: string) {
    && (k in l.db.failures ==> k in m.db.failures)
    && (k !in l.db.failures ==> (k in m.db.failures <==> step.FileFailure? && step.name == k))
    && (k !in l.db.failures && k in m.db.failures ==> step.FileFailure? && C.NewRecord(m.db.failures[k], k, step.report))
    && (k in l.db.failures ==>
          var before := l.db.failures[k]; var after := m.db.failures[k];
          match step
          case Retry(f, original, u, resolve) =>
            if f.name == k && Retries(l, f, original) then C.LinkedTo(before, after, u, resolve) else after == before
          case Resolve(f) => if f == before && !f.resolved then C.Resolved(before, after) else after == before
          case _ => after == before)
  }

  lemma RetryLinksRecord(l: Ledger.State, step: Ledger.Step, k: string)
    requires FailuresOk(l) && Ledger.Enabled(l, step) && step.Retry?
    ensures RecordHistory(l, step, Ledger.Apply(l, step), k)
  {
    hide FailureOk, FailureConsistent, NewDispatchOutboxEntry, RetryRun, RetryLinked;
    if FailureGuard(l.db, step.failure) {
      FailureGuardMeansUnchanged(l, step.failure);
    }
  }

  lemma ResolvesRecord(l: Ledger.State, step: Ledger.Step, k: string)
    requires FailuresOk(l) && Ledger.Enabled(l, step) && step.Resolve?
    ensures RecordHistory(l, step, Ledger.Apply(l, step), k)
  {
    hide FailureOk, FailureConsistent, RetryLinked;
    if FailureGuard(l.db, step.failure) {
      FailureGuardMeansUnchanged(l, step.failure);
    }
  }

  lemma FilingRecordsOnce(l: Ledger.State, step: Ledger.Step, k: string)
    requires step.FileFailure?
    ensures RecordHistory(l, step, Ledger.Apply(l, step), k)
  {
    hide FailRun;
  }

  lemma LedgerRecordHistory(l: Ledger.State, step: Ledger.Step, k: string)
    requires Inv(l) && Ledger.Enabled(l, step)
    ensures RecordHistory(l, step, Ledger.Apply(l, step), k)
  {
    hide Inv;
    InvFailures(l);
    if step.Retry? {
      RetryLinksRecord(l, step, k);
    } else if step.Resolve? {
      ResolvesRecord(l, step, k);
    } else if step.FileFailure? {
      FilingRecordsOnce(l, step, k);
    } else {
      hide Ledger.Apply;
      RecordsLeft(l, step);
    }
  }

  // ----- capabilities -----

  /** A claim is answered with a capability exactly when it takes the run or already held it, and
      the deprecated call exactly when it takes the run; the capability is for the record as it then
      is. Nothing else hands one out. */
  ghost predicate CapsMove(l: Ledger.State, step: Ledger.Step, m: Ledger.State) {
    match step
    case Claim(u, who, request, entry, at) =>
      if entry.Some? && HeldThrough(entry.value, who, request) then
        exists c :: m.issued == l.issued + {c} && C.Authorises(c, entry.value)
      else if u in l.db.results && Writes(l, step, u) then
        u in m.db.results && exists c :: m.issued == l.issued + {c} && C.Authorises(c, m.db.results[u])
      else m.issued == l.issued
    case LegacyAuth(who, run, at, timeout) =>
      if run.uid in l.db.results && l.db.results[run.uid] == run then
        run.uid in m.db.results
        && exists c :: m.issued == l.issued + {c} && C.AuthorisesFor(c, m.db.results[run.uid], at, timeout)
      else m.issued == l.issued
    case _ => m.issued == l.issued
  }

  lemma ClaimIssues(l: Ledger.State, step: Ledger.Step)
    requires Inv(l) && Ledger.Enabled(l, step) && step.Claim?
    ensures CapsMove(l, step, Ledger.Apply(l, step))
  {
    hide CapsOk, OutboxOk, FailuresOk, ScansOk, AuthorizeRun, Adjudicate, Consistent, C.Authorises, HeldThrough, C.MayBeTaken, C.Taken;
    var m := Ledger.Apply(l, step);
    if step.entry.Some? {
      var r := step.entry.value;
      assert RunOk(l, r);
      HeldIsReissued(r, step.who, step.request, step.at, l.cfg.maxRunDuration);
      ClaimIsAnswered(l, step, m);
    } else {
      NothingToClaim(l, step);
    }
  }

  lemma NothingToClaim(l: Ledger.State, step: Ledger.Step)
    requires step.Claim? && step.entry.None?
    ensures Ledger.Apply(l, step) == l
  {
  }

  lemma ClaimIsAnswered(l: Ledger.State, step: Ledger.Step, m: Ledger.State)
    requires RunsOk(l) && step.Claim? && step.entry.Some? && step.entry.value in l.stored && step.entry.value.uid == step.uid
    requires m == Ledger.Apply(l, step)
    ensures CapsMove(l, step, m)
  {
    hide Consistent, Adjudicate, AuthorizeRun, C.Authorises, C.MayBeTaken, C.Taken;
    var r := step.entry.value;
    assert RunOk(l, r);
    HeldIsReissued(r, step.who, step.request, step.at, l.cfg.maxRunDuration);
    if r.status == Pending {
      TakeFields(r, step.who, step.request, step.at, l.cfg.maxRunDuration);
    } else {
      NotPendingNotTaken(l, r, step.who, step.request, step.at);
    }
    if Guard(l.db, r) {
      GuardMeansUnchanged(l, r);
    }
    match Ledger.ClaimAnswer(l, step.who, step.request, step.entry, step.at) {
      case Granted(c) =>
        assert m.issued == l.issued + {c};
        var v := Adjudicate(step.entry, step.who, step.request, step.at, l.cfg.maxRunDuration);
        var held := if v.Take? then Bumped(v.next) else r;
        GrantedBy(step.who, step.request, held, v, r);
        CapFields(held, step.who, step.request.dispatch);
      case Denied(_) =>
    }
  }

  lemma AuthIssues(l: Ledger.State, step: Ledger.Step)
    requires RunsOk(l) && Ledger.Enabled(l, step) && step.LegacyAuth?
    ensures CapsMove(l, step, Ledger.Apply(l, step))
  {
    var run := step.run;
    assert RunOk(l, run);
    if Guard(l.db, run) {
      GuardMeansUnchanged(l, run);
      var held := Bumped(LegacyTake(run, step.who, step.at));
      var c := LegacyCapability(held, step.who, step.at, step.timeout);
      assert C.AuthorisesFor(c, held, step.at, step.timeout);
      assert Ledger.Apply(l, step).issued == l.issued + {c};
    }
  }

  lemma OthersIssueNothing(l: Ledger.State, step: Ledger.Step)
    requires !step.Claim? && !step.LegacyAuth?
    ensures Ledger.Apply(l, step).issued == l.issued
  {
    hide CompleteRun, NewRun, RetryRun, NewFailure, FailRun, ExpireRun;
  }

  lemma LedgerCapsMove(l: Ledger.State, step: Ledger.Step)
    requires Inv(l) && Ledger.Enabled(l, step)
    ensures CapsMove(l, step, Ledger.Apply(l, step))
  {
    if step.Claim? {
      ClaimIssues(l, step);
    } else if step.LegacyAuth? {
      hide CapsMove;
      AuthIssues(l, step);
    } else {
      hide Ledger.Apply;
      OthersIssueNothing(l, step);
    }
  }

  // ----- every step of every party -----

  lemma AskedIsDone(s: State, step: Step)
    requires Enabled(s, step) && Asked(s, step).Some?
    ensures Ledger.Enabled(s.l, Asked(s, step).value) && Apply(s, step).l == Ledger.Apply(s.l, Asked(s, step).value)
  {
    hide Ledger.Apply, Ledger.Enabled;
    if step.AskClaim? {
      ClaimIsDone(s, step);
    } else if step.FileReport? {
      FilingIsDone(s, step);
    }
  }

  lemma ClaimIsDone(s: State, step: Step)
    requires Enabled(s, step) && step.AskClaim?
    ensures Ledger.Enabled(s.l, Asked(s, step).value) && Apply(s, step).l == Ledger.Apply(s.l, Asked(s, step).value)
  {
    hide Ledger.Apply;
  }

  lemma FilingIsDone(s: State, step: Step)
    requires Enabled(s, step) && step.FileReport?
    ensures Asked(s, step).Some? && Ledger.Enabled(s.l, Asked(s, step).value)
    ensures Apply(s, step).l == Ledger.Apply(s.l, Asked(s, step).value)
  {
    hide Ledger.Apply, Ledger.Enabled, Apply, Enabled, Labels.EventName, Labels.FailureName;
    FileReportEffect(s, step);
    FileReportIsStep(s, step.id, step.entry, step.at);
    NamesAreOf(s, step);
  }

  lemma NamesAreOf(s: State, step: Step)
    requires step.FileReport? && step.id in s.floor && s.floor[step.id].phase.Reporting?
    ensures var h := s.floor[step.id];
      Asked(s, step) == Some(Ledger.FileFailure(ReportName(h.msg, h.phase.reason), ReportOf(h.msg, h.phase.reason), step.entry, step.at))
  {
  }

  /** Where nothing is asked of the control plane, runs, records and capabilities stay. */
  lemma NothingAsked(s: State, step: Step)
    requires Enabled(s, step) && Asked(s, step).None?
    ensures var l := Apply(s, step).l;
      l.db.results == s.l.db.results && l.db.failures == s.l.db.failures && l.issued == s.l.issued
  {
    hide Holds, RunIsOver, Delivered, OutcomeOf, Ledger.Apply, Ledger.Enabled;
  }

  /** The relays' and the sweep's own bookkeeping on a row. */
  ghost predicate RowTended(s: State, step: Step, before: Row, after: Row) {
    match step
    case RelayClaim(chosen, relay, lease) =>
      if before.event in chosen then
        C.MayBeLeased(before, s.l.clock) && C.RowLeased(before, after, relay, s.l.clock + lease)
      else after == before
    case RelayMarkPublished(e, receipt) =>
      if e == before.event then C.RowPublished(before, after, s.l.clock, receipt.sequence) else after == before
    case RelayMarkFailed(e, notBefore) =>
      if e == before.event then C.RowHeldBack(before, after, notBefore) else after == before
    case ReleaseLeases =>
      if C.Outstanding(before) && before.claimedBy != "" && before.claimExpires.Some? && before.claimExpires.value <= s.l.clock
      then C.RowReleased(before, after) else after == before
    case SweepRetire(d) =>
      if d.row.event == before.event && before.retiredAt.None? then C.RowRetired(before, after, s.l.clock) else after == before
    case _ => after == before
  }

  lemma RowsTended(s: State, step: Step, e: EventId)
    requires Enabled(s, step) && Asked(s, step).None? && (e in s.l.db.outbox ==> s.l.db.outbox[e].event == e)
    ensures var m := Apply(s, step).l;
      (e in m.db.outbox <==> e in s.l.db.outbox) && (e in m.db.outbox ==> RowTended(s, step, s.l.db.outbox[e], m.db.outbox[e]))
  {
    hide Holds, RunIsOver, Delivered, OutcomeOf, Ledger.Apply, Ledger.Enabled, Publish, DisposeOf;
    if step.Dispose? {
      DisposeLeaves(s, step.id, s.floor[step.id].phase.outcome, step.acked);
    }
  }

  lemma RowKey(s: State, e: EventId)
    requires SysInv(s)
    ensures Inv(s.l) && (e in s.l.db.outbox ==> s.l.db.outbox[e].event == e)
  {
    assert e in s.l.db.outbox ==> RowOk(s.l, e);
  }

  /** In every run of the system, a run's record comes, goes and changes only by a creation, a
      retry, a deletion, a claim, a status report, an expiry or a dead-letter report, exactly when
      that was decided on the record as it is, and then every field is as promised. */
  lemma EveryRunRecord(states: seq<State>, steps: seq<Step>, i: nat, uid: string)
    requires Run(states, steps) && i < |steps|
    ensures var l := states[i].l; var m := states[i + 1].l;
      match Asked(states[i], steps[i])
      case None => m.db.results == l.db.results
      case Some(done) => RunMoves(l, done, m, uid) && RunComes(l, done, m, uid) && RunGoes(l, done, m, uid)
  {
    hide SysInv, Apply, Enabled, RunMoves, RunComes, RunGoes;
    Reachable(states, steps, i);
    LinkAt(states, steps, i);
    RowKey(states[i], EventId(uid, 1));
    var s, step := states[i], steps[i];
    if Asked(s, step).Some? {
      AskedIsDone(s, step);
      LedgerRunMoves(s.l, Asked(s, step).value, uid);
      LedgerRunsComeAndGo(s.l, Asked(s, step).value, uid);
    } else {
      NothingAsked(s, step);
    }
  }

  /** An outbox row comes with its run, its retry or a repair, goes only by removal, and otherwise
      changes by a lease, a publication, a failed one, a released lease, a retirement or its run's
      expiry, exactly when each is due, and then every field is as promised. */
  lemma EveryRow(states: seq<State>, steps: seq<Step>, i: nat, e: EventId)
    requires Run(states, steps) && i < |steps|
    ensures var l := states[i].l; var m := states[i + 1].l;
      match Asked(states[i], steps[i])
      case None =>
        && (e in m.db.outbox <==> e in l.db.outbox)
        && (e in m.db.outbox ==> RowTended(states[i], steps[i], l.db.outbox[e], m.db.outbox[e]))
      case Some(done) => RowHistory(l, done, m, e)
  {
    hide SysInv, Apply, Enabled, RowHistory, RowTended;
    Reachable(states, steps, i);
    LinkAt(states, steps, i);
    RowKey(states[i], e);
    var s, step := states[i], steps[i];
    if Asked(s, step).Some? {
      AskedIsDone(s, step);
      LedgerRowHistory(s.l, Asked(s, step).value, e);
    } else {
      RowsTended(s, step, e);
    }
  }

  /** A dead-letter record comes with the first report under its name, never goes, and changes only
      by a retry or a resolution decided on it as it is. */
  lemma EveryRecord(states: seq<State>, steps: seq<Step>, i: nat, k: string)
    requires Run(states, steps) && i < |steps|
    ensures var l := states[i].l; var m := states[i + 1].l;
      match Asked(states[i], steps[i])
      case None => m.db.failures == l.db.failures
      case Some(done) => RecordHistory(l, done, m, k)
  {
    hide SysInv, Apply, Enabled, RecordHistory;
    Reachable(states, steps, i);
    LinkAt(states, steps, i);
    RowKey(states[i], EventId(k, 1));
    var s, step := states[i], steps[i];
    if Asked(s, step).Some? {
      AskedIsDone(s, step);
      LedgerRecordHistory(s.l, Asked(s, step).value, k);
    } else {
      NothingAsked(s, step);
    }
  }

  /** Capabilities are handed out by claims and the deprecated call alone, exactly to whom the run
      is given or already was, for the record as it then is and as long as promised. */
  lemma EveryCapability(states: seq<State>, steps: seq<Step>, i: nat)
    requires Run(states, steps) && i < |steps|
    ensures match Asked(states[i], steps[i])
      case None => states[i + 1].l.issued == states[i].l.issued
      case Some(done) => CapsMove(states[i].l, done, states[i + 1].l)
  {
    hide SysInv, Apply, Enabled, CapsMove;
    Reachable(states, steps, i);
    LinkAt(states, steps, i);
    RowKey(states[i], EventId("", 1));
    var s, step := states[i], steps[i];
    if Asked(s, step).Some? {
      AskedIsDone(s, step);
      LedgerCapsMove(s.l, Asked(s, step).value);
    } else {
      NothingAsked(s, step);
    }
  }

  // ----- messages -----

  /** The step takes the message at `p`. */
  ghost predicate Takes(s: State, step: Step, p: nat)
    requires p in s.net.queue
  {
    match step
    case Tick(now) => s.net.queue[p].at + s.l.cfg.maxJobAge < now
    case RecreateStream => true
    case SweepDrop(d) => d.row.publishedSeq == p
    case DropDuplicate(id, acked) => acked && id in s.floor && s.floor[id].position.sequence == p
    case Dispose(id, acked) =>
      acked && id in s.floor && s.floor[id].position.sequence == p
      && s.floor[id].phase in {Answered(ClaimAccepted), Answered(ClaimStale)}
    case Terminate(id, done) =>
      done && id in s.floor && s.floor[id].position.sequence == p
      && (s.floor[id].phase.Filed?
          || (s.floor[id].phase.Unfiled? && s.floor[id].phase.status.Some? && 400 <= s.floor[id].phase.status.value < 500))
    case _ => false
  }

  ghost predicate MessageMoves(s: State, step: Step, t: State, p: nat) {
    if p in s.net.queue then
      (p !in t.net.queue <==> Takes(s, step, p)) && (p in t.net.queue ==> t.net.queue[p] == s.net.queue[p])
    else
      && (p in t.net.queue <==> step.RelayPublish? && step.duplicateOf.None? && p == s.net.next)
      && (p in t.net.queue && step.RelayPublish? ==>
            && step.event in s.l.routed
            && t.net.queue[p] == Msg(step.event, step.event.uid, step.event.version, s.l.routed[step.event], s.l.clock))
  }

  lemma NextIsNotQueued(s: State)
    requires SysInv(s)
    ensures s.net.next !in s.net.queue
  {
    assert s.net.next in s.net.queue ==> Taken(s.net, Here(s.net, s.net.next));
  }

  lemma PublicationMoves(s: State, step: Step, p: nat)
    requires Enabled(s, step) && step.RelayPublish? && s.net.next !in s.net.queue
    ensures MessageMoves(s, step, Apply(s, step), p)
  {
  }

  lemma WorkerMovesMessage(s: State, step: Step, p: nat)
    requires Enabled(s, step) && (step.Dispose? || step.DropDuplicate? || step.Terminate?)
    ensures MessageMoves(s, step, Apply(s, step), p)
  {
    hide Holds, RunIsOver, Delivered, OutcomeOf, Ledger.Apply, Ledger.Enabled, Publish;
  }

  lemma OthersMoveMessage(s: State, step: Step, p: nat)
    requires Enabled(s, step) && !step.RelayPublish? && !step.Dispose? && !step.DropDuplicate? && !step.Terminate?
    ensures MessageMoves(s, step, Apply(s, step), p)
  {
    hide Holds, RunIsOver, Delivered, OutcomeOf, Ledger.Apply, Ledger.Enabled, Publish, DisposeOf, ReportName, ReportOf;
  }

  /** A message enters the queue by being published, as its dispatch says, and leaves it exactly by
      age, with its stream, by a withdrawal or an acknowledgement at its sequence that arrived, or
      with a report that is on record or will be refused for ever. */
  lemma EveryMessage(states: seq<State>, steps: seq<Step>, i: nat, p: nat)
    requires Run(states, steps) && i < |steps|
    ensures MessageMoves(states[i], steps[i], states[i + 1], p)
  {
    hide SysInv, Apply, Enabled, MessageMoves;
    Reachable(states, steps, i);
    LinkAt(states, steps, i);
    NextIsNotQueued(states[i]);
    if steps[i].RelayPublish? {
      PublicationMoves(states[i], steps[i], p);
    } else if steps[i].Dispose? || steps[i].DropDuplicate? || steps[i].Terminate? {
      WorkerMovesMessage(states[i], steps[i], p);
    } else {
      OthersMoveMessage(states[i], steps[i], p);
    }
  }

  // ----- handlers -----

  /** What a worker makes of the status a claim failed with. */
  function Understood(status: Option<int>): ClaimOutcome {
    if status == Some(409) then ClaimStale
    else if status in {Some(400), Some(401), Some(403), Some(404)} then ClaimTerminal
    else ClaimRetry
  }

  /** What it makes of an answer it hears. */
  function Heard(answer: Ledger.Answer): ClaimOutcome {
    match answer
    case Granted(_) => ClaimAccepted
    case Denied(Obsolete) => ClaimStale
    case Denied(Forbidden) => ClaimTerminal
    case Denied(Unavailable) => ClaimRetry
  }

  /** The step ends the handler. */
  ghost predicate Ends(s: State, step: Step, i: nat)
    requires i in s.floor
  {
    match step
    case DropDuplicate(id, acked) => id == i
    case Dispose(id, acked) => id == i && s.floor[i].phase in {Answered(ClaimStale), Answered(ClaimRetry), Answered(ClaimAbandon)}
    case Terminate(id, done) => id == i
    case Finish(id) => id == i
    case CrashProcess(process) => s.floor[i].process == process
    case _ => false
  }

  /** How far the step takes it. */
  ghost function NextPhase(s: State, step: Step, i: nat): Phase
    requires i in s.floor
  {
    var h := s.floor[i];
    match step
    case CheckRoute(id) => if id == i then Reporting(MisroutedDispatch) else h.phase
    case Acquire(id) => if id == i then Claiming else h.phase
    case AskClaim(id, entry, at, timeout, heard) =>
      if id != i then h.phase
      else if !heard then Answered(ClaimRetry)
      else Answered(Heard(Ledger.ClaimAnswer(s.l, h.who, ClaimRequest(Some(h.msg.event), h.msg.version, timeout), entry, at)))
    case ClaimFailed(id, status) => if id == i then Answered(Understood(status)) else h.phase
    case ClaimInterrupted(id) => if id == i then Answered(ClaimAbandon) else h.phase
    case Dispose(id, acked) =>
      if id != i then h.phase
      else if h.phase == Answered(ClaimAccepted) then Executing
      else if h.phase == Answered(ClaimTerminal) then Reporting(PolicyRefused)
      else h.phase
    case FileReport(id, entry, at) => if id == i && h.phase.Reporting? then Filed(h.phase.reason) else h.phase
    case ReportFailed(id, status) => if id == i then Unfiled(status) else h.phase
    case _ => h.phase
  }

  ghost predicate HandlerMoves(s: State, step: Step, t: State, i: nat) {
    if i in s.floor then
      && (i !in t.floor <==> Ends(s, step, i))
      && (i in t.floor ==>
            t.floor[i] == s.floor[i].(phase := NextPhase(s, step, i), holding := s.floor[i].holding || step == Acquire(i)))
    else
      && (i in t.floor <==> step.Deliver? && step.id == i)
      && (i in t.floor && step.Deliver? ==>
            && step.sequence in s.net.queue
            && t.floor[i] == Handler(step.process, step.who, Position(s.net.era, step.sequence), s.net.queue[step.sequence], false, Fresh))
  }

  /** A handler claims only a run of its own runner that no handler of its process holds, and drops
      a message only when one does. */
  ghost predicate MayHold(s: State, step: Step) {
    (step.Acquire? || step.DropDuplicate?) ==>
      && step.id in s.floor && s.floor[step.id].msg.runner == s.floor[step.id].who.runner
      && (step.DropDuplicate? <==>
            exists j :: j in s.floor && s.floor[j].holding && s.floor[j].process == s.floor[step.id].process
                     && s.floor[j].msg.uid == s.floor[step.id].msg.uid)
  }

  lemma AskMovesHandler(s: State, step: Step, i: nat)
    requires Enabled(s, step) && (step.AskClaim? || step.FileReport?)
    ensures HandlerMoves(s, step, Apply(s, step), i)
  {
    hide Ledger.Apply, Ledger.Enabled, Ledger.ClaimAnswer, ReportName, ReportOf, Ledger.Loaded;
  }

  lemma WorkerMovesHandler(s: State, step: Step, i: nat)
    requires Enabled(s, step) && TouchesOnlyFloor(step) && !step.Dispose?
    ensures HandlerMoves(s, step, Apply(s, step), i)
  {
    hide DisposeOf, PermanentReportRefusal, Holds, ShouldDrop, MayTerminate, Leave, Ledger.Apply, Ledger.Enabled;
  }

  lemma DisposeMovesHandler(s: State, step: Step, i: nat)
    requires Enabled(s, step) && step.Dispose?
    ensures HandlerMoves(s, step, Apply(s, step), i)
  {
    hide Leave, Ledger.Apply, Ledger.Enabled;
  }

  lemma OthersLeaveHandlers(s: State, step: Step)
    requires Enabled(s, step) && !step.AskClaim? && !step.FileReport? && !TouchesOnlyFloor(step)
    ensures Apply(s, step).floor == s.floor
  {
    hide Holds, RunIsOver, Delivered, OutcomeOf, Ledger.Apply, Ledger.Enabled, Publish, DisposeOf, ReportName, ReportOf;
  }

  lemma HoldingIsAllowed(s: State, step: Step)
    requires Enabled(s, step)
    ensures MayHold(s, step)
  {
    hide Ledger.Enabled;
  }

  /** A handler starts with a delivery, holding nothing; goes from phase to phase as the answers it
      gets, or fails to get, make it; and ends as its message is settled, its run finished or its
      process gone. */
  lemma EveryHandler(states: seq<State>, steps: seq<Step>, n: nat, i: nat)
    requires Run(states, steps) && n < |steps|
    ensures HandlerMoves(states[n], steps[n], states[n + 1], i) && MayHold(states[n], steps[n])
  {
    hide Apply, Enabled, MayHold;
    LinkAt(states, steps, n);
    HoldingIsAllowed(states[n], steps[n]);
    if steps[n].AskClaim? || steps[n].FileReport? {
      hide HandlerMoves;
      AskMovesHandler(states[n], steps[n], i);
    } else if steps[n].Dispose? {
      hide HandlerMoves;
      DisposeMovesHandler(states[n], steps[n], i);
    } else if TouchesOnlyFloor(steps[n]) {
      hide HandlerMoves;
      WorkerMovesHandler(states[n], steps[n], i);
    } else {
      OthersLeaveHandlers(states[n], steps[n]);
    }
  }
}
