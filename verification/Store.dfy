/**
 The control plane's tables as the program updates them: in place, statement by statement,
 with early returns and rollbacks. Every method leaves exactly the tables that its step of
 `Ledger` leaves, where `l` is any ledger state these are the tables of; the safety theorems
 about ledger steps are therefore theorems about these methods.
 */
module Store {
  import opened Domain
  import opened Options
  import opened Tables
  import Ledger
  import Labels
  import C = Records
  import opened Claims

  class Store {
    var results: map<string, Result>
    var deleted: map<string, Result>
    var outbox: map<EventId, Row>
    var failures: map<string, Failure>

    ghost function Contents(): Db
      reads this
    {
      Db(results, deleted, outbox, failures)
    }

    ghost predicate Holds(l: Ledger.State)
      reads this
    {
      l.db == Contents()
    }

    constructor ()
      ensures Contents() == Db(map[], map[], map[], map[])
    {
      results, deleted, outbox, failures := map[], map[], map[], map[];
    }

    // ----- runs -----

    method GetByUid(uid: string) returns (entry: Option<Result>)
      ensures entry == Load(Contents(), uid)
    {
      if uid in results {
        return Some(results[uid]);
      }
      return None;
    }

    /** Applies only when the stored record is still at the version the caller loaded. */
    method Update(next: Result) returns (updated: bool)
      modifies this`results
      ensures updated <==> Guard(old(Contents()), next)
      ensures Contents() == GuardedUpdate(old(Contents()), next)
    {
      if next.uid !in results || results[next.uid].version != next.version {
        return false;
      }
      results := results[next.uid := next.(version := next.version + 1)];
      return true;
    }

    /** The run and its dispatch commit together or not at all. */
    method CreateRun(uid: string, scenario: Scenario, runner: string, stamped: bool, now: nat, ghost l: Ledger.State)
      returns (entry: Option<Result>)
      requires Holds(l) && l.clock == now && uid !in results
      modifies this
      ensures entry.Some? <==> CreationAllowed(scenario)
      ensures Contents() == if entry.Some? then Ledger.CreateStep(l, uid, scenario, runner, stamped).db else old(Contents())
      ensures entry.Some? <==> C.MayRun(scenario)
      ensures entry.Some? ==> C.Made(entry.value, uid, scenario, runner, stamped, now) && results == old(results)[uid := entry.value]
      ensures var e := EventId(uid, 1);
        if entry.Some? && runner != "" && scenario.name != "" then
          e in outbox && C.FreshRow(outbox[e], entry.value, now) && outbox == old(outbox)[e := outbox[e]]
        else outbox == old(outbox)
    {
      if !scenario.active {
        return None;
      }
      var snapshot := NewExecutionSnapshot(scenario);
      if !snapshot.IsExecutable() {
        return None;
      }
      var r := Result(uid, CREATED_VERSION, Pending, NotFinished, "", "", None, None, snapshot, now,
                      if stamped then Some(now) else None, None, None);
      if runner != "" {
        r := r.(runner := runner);
      } else {
        r := FailRun(r, now);
      }
      results := results[uid := r];
      if r.status == Pending && scenario.name != "" && scenario.active {
        outbox := outbox[DispatchEvent(r.uid, r.version) := NewDispatchOutboxEntry(r, now)];
      }
      return Some(r);
    }

    // ----- claims -----

    method ClaimRun(uid: string, who: Claimant, request: ClaimRequest, now: nat, maximum: int, ghost l: Ledger.State)
      returns (answer: Ledger.Answer)
      requires Holds(l) && l.cfg.maxRunDuration == maximum
      modifies this`results
      ensures answer == Ledger.ClaimAnswer(l, who, request, Load(l.db, uid), now)
      ensures Contents() == Ledger.ClaimStep(l, who, request, Load(l.db, uid), now).db
      ensures answer == Ledger.Denied(Forbidden) <==> request.dispatch.None?
      ensures answer.Denied? ==> answer.disposition == Forbidden || answer.disposition == Obsolete
      ensures uid in old(results) && old(results)[uid].uid == uid ==>
        uid in results && ClaimSettles(old(results)[uid], results[uid], answer, who, request, now, maximum)
      ensures uid !in old(results) ==> answer.Denied? && results == old(results)
    {
      hide ClaimSettles, AuthorizeRun;
      if uid in results && results[uid].uid == uid {
        ClaimMeans(l, results[uid], who, request, now);
      }
      if request.dispatch.None? {
        return Ledger.Denied(Forbidden);
      }
      var found := GetByUid(uid);
      if found.None? {
        return Ledger.Denied(Obsolete);
      }
      var entry := found.value;
      if request.version != 0 && request.version != entry.version && !IsReclaim(entry, who.worker, request.dispatch) {
        return Ledger.Denied(Obsolete);
      }
      if entry.runner != "" && entry.runner != who.runner {
        return Ledger.Denied(Obsolete);
      }
      if entry.snapshot.IsZero() {
        MarkUnschedulable(entry, now);
        return Ledger.Denied(Obsolete);
      }
      if entry.status == Running {
        if IsReclaim(entry, who.worker, request.dispatch) {
          return Ledger.Granted(AuthorizeRun(entry, who, request.dispatch, entry.deadline));
        }
        return Ledger.Denied(Obsolete);
      }
      if entry.status != Pending {
        return Ledger.Denied(Obsolete);
      }
      var duration := ClampRunDuration(request.timeout, maximum);
      entry := entry.(started := Some(now), status := Running);
      entry := entry.(worker := who.worker, runner := who.runner);
      entry := entry.(dispatch := request.dispatch, deadline := Some(now + duration));
      var updated := Update(entry);
      if !updated {
        return Ledger.Denied(Obsolete);
      }
      return Ledger.Granted(AuthorizeRun(Bumped(entry), who, request.dispatch, entry.deadline));
    }

    /** Retires a pending run that can never be executed; whatever was committed meanwhile stands. */
    method MarkUnschedulable(entry: Result, now: nat)
      modifies this`results
      ensures Contents() == if entry.status == Pending then GuardedUpdate(old(Contents()), FailRun(entry, now)) else old(Contents())
      ensures entry.status == Pending && Guard(old(Contents()), entry) ==> C.Stranded(entry, results[entry.uid], now)
    {
      if entry.status != Pending {
        return;
      }
      var next := entry.(ended := Some(now), status := Errored, outcome := FinishedError);
      var _ := Update(next);
    }

    /** The deprecated claim: no deadline, refused once anything has started the run. */
    method Auth(entry: Result, who: Claimant, now: nat, timeout: int, ghost l: Ledger.State) returns (cap: Option<Capability>)
      requires Holds(l)
      modifies this`results
      ensures cap.Some? <==> LegacyMayTake(entry) && Guard(l.db, entry)
      ensures cap.Some? ==> Ledger.LegacyStep(l, who, entry, now, timeout).issued == l.issued + {cap.value}
      ensures Contents() == if LegacyMayTake(entry) then Ledger.LegacyStep(l, who, entry, now, timeout).db else old(Contents())
      ensures cap.Some? ==> entry.status == Pending && entry.started.None? && C.TakenByAuth(entry, results[entry.uid], who, now)
      ensures cap.Some? ==> C.AuthorisesFor(cap.value, results[entry.uid], now, timeout)
    {
      if entry.status != Pending || entry.started.Some? {
        return None;
      }
      var next := entry.(started := Some(now), status := Running);
      next := next.(worker := who.worker, runner := who.runner);
      var updated := Update(next);
      if !updated {
        return None;
      }
      return Some(LegacyCapability(Bumped(next), who, now, timeout));
    }

    /** The version and the capability decide; the run's state is not consulted. */
    method UpdateStatus(uid: string, version: nat, token: Capability, outcome: RunOutcome, now: nat, ghost l: Ledger.State)
      returns (accepted: bool)
      requires Holds(l) && forall u :: u in results ==> results[u].uid == u
      modifies this`results
      ensures accepted <==> uid in l.db.results && l.db.results[uid].version == version && token.uid == uid && now < token.expiry
      ensures Contents() ==
        if accepted then Ledger.Apply(l, Ledger.UpdateStatus(token, version, l.db.results[uid], now, outcome)).db
        else old(Contents())
      ensures accepted ==> uid in results && C.Finished(old(results)[uid], results[uid], Completed, outcome, now)
    {
      var found := GetByUid(uid);
      if found.None? || found.value.version != version {
        return false;
      }
      var entry := found.value;
      if token.uid != entry.uid || token.expiry <= now {
        return false;
      }
      entry := entry.(ended := Some(now));
      entry := entry.(status := Completed, outcome := outcome);
      accepted := Update(entry);
    }

    // ----- the reconciler's writes -----

    /** One transaction: the expiry, and the retirement of what has not gone out. */
    method ExpireRun(r: Result, at: nat, ghost l: Ledger.State) returns (expired: bool)
      requires Holds(l)
      modifies this
      ensures expired <==> !r.status.IsTerminal() && Guard(l.db, r)
      ensures Contents() == Ledger.ExpireStep(l, r, at).db == Tables.ExpireRun(old(Contents()), r, at)
      ensures expired ==> C.TimedOut(r, results[r.uid], at) && outbox.Keys == old(outbox).Keys
      ensures expired ==> forall e :: e in outbox ==>
        if old(outbox)[e].uid == r.uid && C.Outstanding(old(outbox)[e]) then C.RowExpired(old(outbox)[e], outbox[e], at)
        else outbox[e] == old(outbox)[e]
    {
      if r.status.IsTerminal() {
        return false;
      }
      var next := r.(status := Expired, outcome := FinishedTimeout);
      next := next.(ended := Some(at));
      var updated := Update(next);
      if !updated {
        return false;
      }
      outbox := RetireUnpublished(outbox, r.uid, at);
      return true;
    }

    method EnqueueDispatch(r: Result, now: nat) returns (inserted: bool)
      modifies this`outbox
      ensures inserted <==> DispatchEvent(r.uid, r.version) !in old(outbox)
      ensures Contents() == Tables.EnqueueDispatch(old(Contents()), r, now)
      ensures inserted ==> var e := EventId(r.uid, r.version); e in outbox && C.FreshRow(outbox[e], r, now)
    {
      var entry := NewDispatchOutboxEntry(r, now);
      if entry.event in outbox {
        return false;
      }
      outbox := outbox[entry.event := entry];
      return true;
    }

    method RetireDispatch(e: EventId, at: nat)
      modifies this`outbox
      ensures Contents() == Tables.RetireDispatch(old(Contents()), e, at)
      ensures e in outbox && old(outbox)[e].retiredAt.None? ==> C.RowRetired(old(outbox)[e], outbox[e], at)
    {
      if e in outbox && outbox[e].retiredAt.None? {
        outbox := outbox[e := outbox[e].(retiredAt := Some(at), claimedBy := "", claimExpires := None)];
      }
    }

    // ----- the relay's writes -----

    method MarkPublished(e: EventId, at: nat, receipt: nat) returns (found: bool)
      modifies this`outbox
      ensures found <==> e in old(outbox)
      ensures Contents() == Tables.MarkPublished(old(Contents()), e, at, receipt)
      ensures found ==> e in outbox && C.RowPublished(old(outbox)[e], outbox[e], at, receipt)
    {
      if e !in outbox {
        return false;
      }
      outbox := outbox[e := outbox[e].(publishedAt := Some(at), publishedSeq := receipt, claimedBy := "", claimExpires := None)];
      return true;
    }

    method MarkFailed(e: EventId, notBefore: int) returns (found: bool)
      modifies this`outbox
      ensures found <==> e in old(outbox)
      ensures Contents() == Tables.MarkFailed(old(Contents()), e, notBefore)
      ensures found ==> e in outbox && C.RowHeldBack(old(outbox)[e], outbox[e], notBefore)
    {
      if e !in outbox {
        return false;
      }
      outbox := outbox[e := outbox[e].(notBefore := notBefore, claimedBy := "", claimExpires := None)];
      return true;
    }

    // ----- dead letters -----

    /** One record per event and reason; whatever run the report names, if it is pending at the
        version named, is stranded in the same transaction. A repeat is a success that does nothing. */
    method RecordDispatchFailure(report: Report, now: nat, ghost l: Ledger.State) returns (accepted: bool, created: bool)
      requires Holds(l)
      modifies this
      ensures accepted <==> report.event != ""
      ensures created <==> accepted && Labels.RecordName(report.event, report.reason) !in old(failures)
      ensures Contents() ==
        if accepted then
          Ledger.FileStep(l, Labels.RecordName(report.event, report.reason), report, Load(l.db, report.uid), now).db
        else old(Contents())
      ensures created ==> var name := Labels.RecordName(report.event, report.reason);
        name in failures && C.NewRecord(failures[name], name, report)
      ensures created && report.uid in old(results) && old(results)[report.uid].uid == report.uid != "" ==>
        var r := old(results)[report.uid];
        if r.status == Pending && (report.version == 0 || report.version == r.version)
        then C.Stranded(r, results[report.uid], now) else results[report.uid] == r
    {
      if report.event == "" {
        return false, false;
      }
      var name := Labels.RecordName(report.event, report.reason);
      if name in failures {
        return true, false;
      }
      failures := failures[name := NewFailure(name, report)];
      StrandRun(report.uid, report.version, now);
      return true, true;
    }

    method StrandRun(uid: string, version: nat, now: nat)
      modifies this`results
      ensures Contents() == Tables.StrandRun(old(Contents()), uid, version, Load(old(Contents()), uid), now)
      ensures uid != "" && uid in old(results) && old(results)[uid].uid == uid ==>
        var r := old(results)[uid];
        && uid in results
        && if r.status == Pending && (version == 0 || version == r.version) then C.Stranded(r, results[uid], now) else results[uid] == r
    {
      if uid == "" {
        return;
      }
      var found := GetByUid(uid);
      if found.None? || found.value.status != Pending {
        return;
      }
      if version != 0 && version != found.value.version {
        return;
      }
      var _ := Update(FailRun(found.value, now));
    }

    /** The retry run and its dispatch are written before the guard on the failure decides; when
        it refuses, the transaction rolls back and takes both with it. */
    method RetryDispatchFailure(f: Failure, uid: string, resolve: bool, now: nat, ghost l: Ledger.State)
      returns (retry: Option<Result>)
      requires Holds(l) && l.clock == now && uid !in results
      modifies this
      ensures f.report.uid in old(results) ==>
        var original := old(results)[f.report.uid];
        && (retry.Some? <==> MayRetry(f, original) && FailureGuard(l.db, f))
        && (retry.Some? ==> retry.value == RetryRun(uid, original, f, now))
        && (original.uid == f.report.uid ==> Contents() == Ledger.RetryStep(l, f, original, uid, resolve).db)
      ensures f.report.uid !in old(results) ==> retry.None? && Contents() == old(Contents())
      ensures retry.Some? ==>
        var e := EventId(uid, 1);
        && f.report.uid in old(results) && C.RetryOf(retry.value, uid, old(results)[f.report.uid], f.name, now)
        && results == old(results)[uid := retry.value]
        && e in outbox && C.FreshRow(outbox[e], retry.value, now)
        && f.name in failures && C.LinkedTo(f, failures[f.name], uid, resolve)
    {
      if f.retry != "" || f.report.uid == "" {
        return None;
      }
      var found := GetByUid(f.report.uid);
      if found.None? || found.value.snapshot.IsZero() {
        return None;
      }
      var original := found.value;
      var results0, outbox0 := results, outbox;

      var r := Result(uid, CREATED_VERSION, Pending, NotFinished, original.runner, "", None, None,
                      original.snapshot, now, None, None, Some(f.name));
      results := results[uid := r];
      var entry := NewDispatchOutboxEntry(r, now);
      outbox := outbox[entry.event := entry];
      var updated := f.(retry := uid);
      if resolve {
        updated := updated.(resolved := true);
      }
      if f.name !in failures || failures[f.name].rev != f.rev {
        results, outbox := results0, outbox0;
        return None;
      }
      failures := failures[f.name := updated.(rev := f.rev + 1)];
      return Some(r);
    }

    method ResolveDispatchFailure(f: Failure, ghost l: Ledger.State) returns (resolved: bool)
      requires Holds(l)
      modifies this`failures
      ensures resolved <==> !f.resolved && FailureGuard(l.db, f)
      ensures Contents() == Ledger.ResolveStep(l, f).db
      ensures resolved ==> C.Resolved(f, failures[f.name])
    {
      if f.resolved {
        return false;
      }
      if f.name !in failures || failures[f.name].rev != f.rev {
        return false;
      }
      failures := failures[f.name := f.(resolved := true, rev := f.rev + 1)];
      return true;
    }
  }
}
