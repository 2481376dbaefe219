/**
 One scan of the reconciler: the passes as loops over what the queries returned, what each pass
 repairs, and what a whole undisturbed scan leaves behind. Query answers are parameters; a pass
 makes no assumption about how much of the backlog its batch covers.
 */
module Reconciler {
  import opened Domain
  import opened Options
  import opened Tables
  import Ledger
  import Y = System
  import S = Store
  import C = Records

  datatype ScanReport = ScanReport(expiredRunning: nat, expiredPending: nat, redispatched: nat,
                           dropped: nat, retired: nat, failures: nat)

  const NOTHING_YET := ScanReport(0, 0, 0, 0, 0, 0)

  /** Rows are keyed by their own event, which their run's UID and version make up. */
  ghost predicate Keyed(db: Db) {
    && (forall u :: u in db.results ==> db.results[u].uid == u)
    && (forall e :: e in db.outbox ==> db.outbox[e].event == e == DispatchEvent(db.outbox[e].uid, db.outbox[e].version))
  }

  // ----- what each pass makes of the tables -----

  function ExpirePass(db: Db, runs: seq<Result>, at: nat): Db {
    if runs == [] then db
    else ExpireRun(ExpirePass(db, runs[..|runs| - 1], at), runs[|runs| - 1], at)
  }

  /** How many of those expiries applied. */
  function ExpiryCount(db: Db, runs: seq<Result>, at: nat): nat {
    if runs == [] then 0
    else
      var n := |runs| - 1;
      var before := ExpirePass(db, runs[..n], at);
      ExpiryCount(db, runs[..n], at) + if runs[n].status.IsTerminal() || !Guard(before, runs[n]) then 0 else 1
  }

  /** Three states hide behind "still pending", and they want opposite handling. */
  function PendingRepair(db: Db, c: Ledger.Candidate, at: nat): Db {
    match c.dispatch
    case Some(row) => if BelongsToRelay(row) then db else ExpireRun(db, c.run, at)
    case None => EnqueueDispatch(db, c.run, at)
  }

  function PendingPass(db: Db, candidates: seq<Ledger.Candidate>, at: nat): Db {
    if candidates == [] then db
    else PendingRepair(PendingPass(db, candidates[..|candidates| - 1], at), candidates[|candidates| - 1], at)
  }

  /** What the pass adds to the report: an expiry or a re-dispatch counts when it applied. */
  function PendingReport(db: Db, candidates: seq<Ledger.Candidate>, at: nat, report: ScanReport): ScanReport {
    if candidates == [] then report
    else
      var n := |candidates| - 1;
      var before, r, c := PendingPass(db, candidates[..n], at), PendingReport(db, candidates[..n], at, report), candidates[n];
      match c.dispatch
      case Some(row) =>
        if BelongsToRelay(row) || c.run.status.IsTerminal() || !Guard(before, c.run) then r
        else r.(expiredPending := r.expiredPending + 1)
      case None =>
        if DispatchEvent(c.run.uid, c.run.version) in before.outbox then r
        else r.(redispatched := r.redispatched + 1)
  }

  /** A withdrawal the broker refuses leaves the row unretired, for the next scan to try again. */
  predicate Withheld(d: Y.Stale, withdrawn: bool) {
    Y.ShouldDrop(d) && !withdrawn
  }

  function SweepRows(db: Db, stale: seq<Y.Stale>, withdrawn: seq<bool>, at: nat): Db
    requires |withdrawn| == |stale|
  {
    if stale == [] then db
    else
      var n := |stale| - 1;
      var before := SweepRows(db, stale[..n], withdrawn[..n], at);
      if Withheld(stale[n], withdrawn[n]) then before else RetireDispatch(before, stale[n].row.event, at)
  }

  function SweepQueue(queue: map<nat, Y.Msg>, stale: seq<Y.Stale>, withdrawn: seq<bool>): map<nat, Y.Msg>
    requires |withdrawn| == |stale|
  {
    if stale == [] then queue
    else
      var n := |stale| - 1;
      var before := SweepQueue(queue, stale[..n], withdrawn[..n]);
      if Y.ShouldDrop(stale[n]) && withdrawn[n] then before - {stale[n].row.publishedSeq} else before
  }

  function CountWithheld(stale: seq<Y.Stale>, withdrawn: seq<bool>): nat
    requires |withdrawn| == |stale|
  {
    if stale == [] then 0
    else
      var n := |stale| - 1;
      CountWithheld(stale[..n], withdrawn[..n]) + if MayBeQueued(stale[n]) && !withdrawn[n] then 1 else 0
  }

  function CountDropped(stale: seq<Y.Stale>, withdrawn: seq<bool>): nat
    requires |withdrawn| == |stale|
  {
    if stale == [] then 0
    else
      var n := |stale| - 1;
      CountDropped(stale[..n], withdrawn[..n]) + if MayBeQueued(stale[n]) && withdrawn[n] then 1 else 0
  }

  /** A refused withdrawal is a failure, a granted one a dropped message; all but the refused
      are retired. */
  function SweepReport(stale: seq<Y.Stale>, withdrawn: seq<bool>, report: ScanReport): ScanReport
    requires |withdrawn| == |stale|
  {
    WithheldAtMost(stale, withdrawn);
    report.(failures := report.failures + CountWithheld(stale, withdrawn),
            dropped := report.dropped + CountDropped(stale, withdrawn),
            retired := report.retired + (|stale| - CountWithheld(stale, withdrawn)))
  }

  lemma {:induction false} WithheldAtMost(stale: seq<Y.Stale>, withdrawn: seq<bool>)
    requires |withdrawn| == |stale|
    ensures CountWithheld(stale, withdrawn) <= |stale|
  {
    if stale != [] {
      WithheldAtMost(stale[..|stale| - 1], withdrawn[..|stale| - 1]);
    }
  }

  // ----- the passes -----

  class Reconciler {
    const store: S.Store
    var queue: map<nat, Y.Msg>
    var report: ScanReport

    constructor (store: S.Store, queue: map<nat, Y.Msg>)
      ensures this.store == store && this.queue == queue && report == NOTHING_YET
    {
      this.store, this.queue, report := store, queue, NOTHING_YET;
    }

    method ExpireAbandonedRuns(runs: seq<Result>, now: nat)
      modifies store, this`report
      ensures store.Contents() == ExpirePass(old(store.Contents()), runs, now)
      ensures report == old(report).(expiredRunning := old(report.expiredRunning) + ExpiryCount(old(store.Contents()), runs, now))
    {
      for i := 0 to |runs|
        invariant store.Contents() == ExpirePass(old(store.Contents()), runs[..i], now)
        invariant report == old(report).(expiredRunning := old(report.expiredRunning) + ExpiryCount(old(store.Contents()), runs[..i], now))
      {
        assert runs[..i + 1][..i] == runs[..i];
        ghost var l := AnyLedger(store.Contents());
        var expired := store.ExpireRun(runs[i], now, l);
        if expired {
          report := report.(expiredRunning := report.expiredRunning + 1);
        }
      }
      assert runs[..|runs|] == runs;
    }

    method ReconcilePendingDispatches(candidates: seq<Ledger.Candidate>, now: nat)
      modifies store, this`report
      ensures store.Contents() == PendingPass(old(store.Contents()), candidates, now)
      ensures report == PendingReport(old(store.Contents()), candidates, now, old(report))
    {
      for i := 0 to |candidates|
        invariant store.Contents() == PendingPass(old(store.Contents()), candidates[..i], now)
        invariant report == PendingReport(old(store.Contents()), candidates[..i], now, old(report))
      {
        assert candidates[..i + 1][..i] == candidates[..i];
        var candidate := candidates[i];
        if candidate.dispatch.Some? && candidate.dispatch.value.publishedAt.None? && candidate.dispatch.value.retiredAt.None? {
          continue;
        }
        if candidate.dispatch.None? {
          var enqueued := store.EnqueueDispatch(candidate.run, now);
          if enqueued {
            report := report.(redispatched := report.redispatched + 1);
          }
          continue;
        }
        ghost var l := AnyLedger(store.Contents());
        var expired := store.ExpireRun(candidate.run, now, l);
        if expired {
          report := report.(expiredPending := report.expiredPending + 1);
        }
      }
      assert candidates[..|candidates|] == candidates;
    }

    /** `withdrawn` is the broker's answer to each withdrawal it would be asked for. */
    method RetireStaleDispatches(stale: seq<Y.Stale>, withdrawn: seq<bool>, now: nat)
      requires |withdrawn| == |stale|
      modifies store`outbox, this
      ensures store.Contents() == SweepRows(old(store.Contents()), stale, withdrawn, now)
      ensures queue == SweepQueue(old(queue), stale, withdrawn)
      ensures report == SweepReport(stale, withdrawn, old(report))
      ensures report.failures == old(report.failures) + CountWithheld(stale, withdrawn)
      ensures report.dropped == old(report.dropped) + CountDropped(stale, withdrawn)
      ensures report.retired == old(report.retired) + |stale| - CountWithheld(stale, withdrawn)
      ensures report == old(report).(failures := report.failures, dropped := report.dropped, retired := report.retired)
    {
      for i := 0 to |stale|
        invariant store.Contents() == SweepRows(old(store.Contents()), stale[..i], withdrawn[..i], now)
        invariant queue == SweepQueue(old(queue), stale[..i], withdrawn[..i])
        invariant report == SweepReport(stale[..i], withdrawn[..i], old(report))
      {
        assert stale[..i + 1][..i] == stale[..i] && withdrawn[..i + 1][..i] == withdrawn[..i];
        var dispatch := stale[i];
        if Y.ShouldDrop(dispatch) {
          if !withdrawn[i] {
            report := report.(failures := report.failures + 1);
            continue;
          }
          queue := queue - {dispatch.row.publishedSeq};
          report := report.(dropped := report.dropped + 1);
        }
        store.RetireDispatch(dispatch.row.event, now);
        report := report.(retired := report.retired + 1);
      }
      assert stale[..|stale|] == stale && withdrawn[..|withdrawn|] == withdrawn;
    }
  }

  ghost function AnyLedger(db: Db): (l: Ledger.State)
    ensures l.db == db
  {
    Ledger.State(0, Config(0, 0, 0, 0), db, map[], {}, {}, {}, map[], {}, {}, {}, map[], {})
  }

  /** Joins each pending run with the row of its own UID and version: a row written for another
      version of it says nothing about whether this one was dispatched. */
  method JoinDispatches(found: seq<Result>, entries: seq<Row>, at: nat, ghost db: Db) returns (pending: seq<Ledger.Candidate>)
    requires Keyed(db)
    requires forall row :: row in entries <==>
      row.event in db.outbox && db.outbox[row.event] == row && exists i :: 0 <= i < |found| && found[i].uid == row.uid
    ensures |pending| == |found|
    ensures forall i :: 0 <= i < |found| ==> pending[i] == Ledger.Candidate(found[i], RowOf(db, found[i]), at)
  {
    var dispatches: map<(string, nat), Row> := map[];
    for k := 0 to |entries|
      invariant forall u, v :: (u, v) in dispatches ==>
        dispatches[(u, v)] in entries && dispatches[(u, v)].uid == u && dispatches[(u, v)].version == v
      invariant forall m :: 0 <= m < k ==> (entries[m].uid, entries[m].version) in dispatches
    {
      dispatches := dispatches[(entries[k].uid, entries[k].version) := entries[k]];
    }
    pending := [];
    for i := 0 to |found|
      invariant |pending| == i
      invariant forall j :: 0 <= j < i ==> pending[j] == Ledger.Candidate(found[j], RowOf(db, found[j]), at)
    {
      var run := found[i];
      var candidate := Ledger.Candidate(run, None, at);
      if (run.uid, run.version) in dispatches {
        candidate := candidate.(dispatch := Some(dispatches[(run.uid, run.version)]));
      }
      ghost var e := DispatchEvent(run.uid, run.version);
      if e in db.outbox {
        assert db.outbox[e] in entries;
      }
      pending := pending + [candidate];
    }
  }

  // ----- what a pass repairs -----

  /** Nothing outside the runs `uids` and their rows changes. */
  ghost predicate OnlyTouches(db: Db, after: Db, uids: set<string>) {
    && after.results.Keys == db.results.Keys && after.failures == db.failures && after.deleted == db.deleted
    && (forall u :: u in db.results && u !in uids ==> after.results[u] == db.results[u])
    && (forall e :: e in db.outbox ==> e in after.outbox && (db.outbox[e].uid !in uids ==> after.outbox[e] == db.outbox[e]))
    && (forall e :: e in after.outbox && e !in db.outbox ==> e.uid in uids)
  }

  function Uids(runs: seq<Result>): set<string> {
    set i | 0 <= i < |runs| :: runs[i].uid
  }

  /** The stored records themselves, each once. */
  ghost predicate Current(db: Db, runs: seq<Result>) {
    && (forall i :: 0 <= i < |runs| ==> runs[i].uid in db.results && db.results[runs[i].uid] == runs[i])
    && (forall i, j :: 0 <= i < j < |runs| ==> runs[i].uid != runs[j].uid)
  }

  lemma ExpireTouchesOne(db: Db, r: Result, at: nat)
    requires Keyed(db)
    ensures Keyed(ExpireRun(db, r, at)) && OnlyTouches(db, ExpireRun(db, r, at), {r.uid})
    ensures ExpireRun(db, r, at).outbox.Keys == db.outbox.Keys
    ensures forall e :: e in db.outbox && !BelongsToRelay(db.outbox[e]) ==> ExpireRun(db, r, at).outbox[e] == db.outbox[e]
    ensures Guard(db, r) && !r.status.IsTerminal() ==>
      && ExpireRun(db, r, at).results[r.uid] == Bumped(ExpireResult(r, at))
      && forall e :: e in db.outbox && db.outbox[e].uid == r.uid ==> !BelongsToRelay(ExpireRun(db, r, at).outbox[e])
  {
    hide ExpireRun, Keyed, OnlyTouches, BelongsToRelay;
    ExpireRows(db, r, at);
    ExpireKeyed(db, r, at);
    ExpireEnds(db, r, at);
  }

  lemma ExpireKeyed(db: Db, r: Result, at: nat)
    requires Keyed(db)
    ensures Keyed(ExpireRun(db, r, at)) && OnlyTouches(db, ExpireRun(db, r, at), {r.uid})
  {
    hide BelongsToRelay;
  }

  lemma ExpireRows(db: Db, r: Result, at: nat)
    ensures ExpireRun(db, r, at).outbox.Keys == db.outbox.Keys
    ensures forall e :: e in db.outbox && !BelongsToRelay(db.outbox[e]) ==> ExpireRun(db, r, at).outbox[e] == db.outbox[e]
  {
  }

  lemma ExpireEnds(db: Db, r: Result, at: nat)
    ensures ExpireRun(db, r, at).outbox.Keys == db.outbox.Keys
    ensures Guard(db, r) && !r.status.IsTerminal() ==>
      && ExpireRun(db, r, at).results[r.uid] == Bumped(ExpireResult(r, at))
      && forall e :: e in db.outbox && db.outbox[e].uid == r.uid ==> !BelongsToRelay(ExpireRun(db, r, at).outbox[e])
  {
  }

  lemma OnlyTouchesMore(db: Db, mid: Db, after: Db, uids: set<string>, more: set<string>)
    requires OnlyTouches(db, mid, uids) && OnlyTouches(mid, after, more) && Keyed(db) && Keyed(mid)
    ensures OnlyTouches(db, after, uids + more)
  {
    forall e | e in db.outbox && db.outbox[e].uid !in uids + more ensures after.outbox[e] == db.outbox[e] {
      assert mid.outbox[e] == db.outbox[e];
    }
  }

  lemma ExpireNext(db: Db, mid: Db, after: Db, r: Result, at: nat, uids: set<string>)
    requires Keyed(db) && Keyed(mid) && OnlyTouches(db, mid, uids) && r.uid !in uids
    requires r.uid in db.results && db.results[r.uid] == r && !r.status.IsTerminal() && after == ExpireRun(mid, r, at)
    ensures Keyed(after) && OnlyTouches(db, after, uids + {r.uid}) && OnlyTouches(mid, after, {r.uid})
    ensures Guard(mid, r) && after.outbox.Keys == mid.outbox.Keys
    ensures r.uid in after.results && after.results[r.uid] == Bumped(ExpireResult(r, at))
  {
    hide ExpireRun;
    ExpireTouchesOne(mid, r, at);
    OnlyTouchesMore(db, mid, after, uids, {r.uid});
  }

  /** The run has been ended by a pass at `at`, as timed out. */
  ghost predicate Ended(after: Db, r: Result, at: nat) {
    r.uid in after.results && C.TimedOut(r, after.results[r.uid], at)
  }

  lemma EndedStays(mid: Db, after: Db, r: Result, at: nat, uid: string)
    requires Ended(mid, r, at) && OnlyTouches(mid, after, {uid}) && uid != r.uid
    ensures Ended(after, r, at)
  {
  }

  lemma SplitRuns(db: Db, runs: seq<Result>, n: nat)
    requires Current(db, runs) && |runs| == n + 1
    ensures Current(db, runs[..n]) && runs[n].uid !in Uids(runs[..n]) && Uids(runs) == Uids(runs[..n]) + {runs[n].uid}
    ensures runs[n].uid in db.results && db.results[runs[n].uid] == runs[n]
    ensures forall i :: 0 <= i < n ==> runs[i].uid != runs[n].uid
  {
  }

  /** The expiry pass ends every listed run that is still what the query read and touches nothing
      but those runs and their rows. */
  lemma {:induction false} ExpirePassExpires(db: Db, runs: seq<Result>, at: nat)
    requires Keyed(db) && Current(db, runs) && forall i :: 0 <= i < |runs| ==> !runs[i].status.IsTerminal()
    ensures var after := ExpirePass(db, runs, at);
      && Keyed(after) && OnlyTouches(db, after, Uids(runs)) && after.outbox.Keys == db.outbox.Keys
      && (forall i :: 0 <= i < |runs| ==> Ended(after, runs[i], at))
  {
    if runs != [] {
      hide ExpireRun, Keyed, Current, Guard, Ended, OnlyTouches;
      var n := |runs| - 1;
      SplitRuns(db, runs, n);
      var r := runs[n];
      var mid, after := ExpirePass(db, runs[..n], at), ExpirePass(db, runs, at);
      ExpirePassExpires(db, runs[..n], at);
      ExpireNext(db, mid, after, r, at, Uids(runs[..n]));
      forall i | 0 <= i < |runs| ensures Ended(after, runs[i], at) {
        if i < n {
          assert runs[..n][i] == runs[i];
          EndedStays(mid, after, runs[i], at, r.uid);
        } else {
          EndedNow(after, r, at);
        }
      }
    } else {
      EmptyPass(db);
    }
  }

  /** One expiry counts exactly when it finds the run at the version it was loaded at, and not over. */
  lemma OneExpiryCounts(db: Db, r: Result, at: nat)
    ensures ExpiryCount(db, [r], at) ==
      if r.status in {Pending, Running} && r.uid in db.results && db.results[r.uid].version == r.version then 1 else 0
  {
    assert [r][..0] == [];
  }

  /** And each counts against the tables the ones before it left. */
  lemma ExpiriesAddUp(db: Db, runs: seq<Result>, r: Result, at: nat)
    ensures ExpiryCount(db, runs + [r], at) == ExpiryCount(db, runs, at) + ExpiryCount(ExpirePass(db, runs, at), [r], at)
    ensures ExpirePass(db, runs + [r], at) == ExpirePass(ExpirePass(db, runs, at), [r], at)
  {
    assert (runs + [r])[..|runs|] == runs && [r][..0] == [];
  }

  /** And counts each of them. */
  lemma {:induction false} ExpirePassCounts(db: Db, runs: seq<Result>, at: nat)
    requires Keyed(db) && Current(db, runs) && forall i :: 0 <= i < |runs| ==> !runs[i].status.IsTerminal()
    ensures ExpiryCount(db, runs, at) == |runs|
  {
    if runs != [] {
      hide ExpireRun, Keyed, Current, Guard, Ended, OnlyTouches;
      var n := |runs| - 1;
      SplitRuns(db, runs, n);
      ExpirePassCounts(db, runs[..n], at);
      ExpirePassExpires(db, runs[..n], at);
      ExpireNext(db, ExpirePass(db, runs[..n], at), ExpirePass(db, runs, at), runs[n], at, Uids(runs[..n]));
    }
  }

  lemma EndedNow(after: Db, r: Result, at: nat)
    requires r.uid in after.results && after.results[r.uid] == Bumped(ExpireResult(r, at))
    ensures Ended(after, r, at)
  {
  }

  lemma EmptyPass(db: Db)
    ensures OnlyTouches(db, db, {})
  {
  }

  function RunsOf(candidates: seq<Ledger.Candidate>): (runs: seq<Result>)
    ensures |runs| == |candidates| && forall i :: 0 <= i < |runs| ==> runs[i] == candidates[i].run
  {
    seq(|candidates|, i requires 0 <= i < |candidates| => candidates[i].run)
  }

  /** What becomes of one stale pending run. */
  ghost predicate Repaired(after: Db, c: Ledger.Candidate, at: nat) {
    var e := EventId(c.run.uid, c.run.version);
    c.run.uid in after.results &&
    match c.dispatch
    case Some(row) =>
      if C.Outstanding(row) then after.results[c.run.uid] == c.run && e in after.outbox && after.outbox[e] == row
      else C.TimedOut(c.run, after.results[c.run.uid], at)
    case None =>
      after.results[c.run.uid] == c.run && e in after.outbox && C.FreshRow(after.outbox[e], c.run, at)
  }

  /** What the sweep lists, and of that what it asks the broker to withdraw, is what the protocol's
      own sweep may scan and withdraw. */
  lemma SweptIffEnabled(s: Y.State, e: EventId)
    ensures IsLeftover(s.l.db, e) <==> Y.Enabled(s, Y.SweepScan(e))
    ensures IsLeftover(s.l.db, e) ==>
      var row := s.l.db.outbox[e]; var d := Y.Stale(row, ClaimedThrough(s.l.db, row), Y.EraOf(s.net, e));
      && Y.Apply(s, Y.SweepScan(e)).net.swept == s.net.swept + {d}
      && (d in s.net.swept ==> (MayBeQueued(d) <==> Y.Enabled(s, Y.SweepDrop(d))))
  {
  }

  /** The row written for this very version of the run, if there is one. */
  function RowOf(db: Db, r: Result): Option<Row> {
    if EventId(r.uid, r.version) in db.outbox then Some(db.outbox[EventId(r.uid, r.version)]) else None
  }

  /** A candidate as the query answers it. */
  ghost predicate Read(db: Db, c: Ledger.Candidate) {
    c.run.status == Pending && c.dispatch == RowOf(db, c.run)
  }

  lemma RepairOne(db: Db, c: Ledger.Candidate, at: nat)
    requires Keyed(db) && c.run.uid in db.results && db.results[c.run.uid] == c.run && Read(db, c)
    ensures var after := PendingRepair(db, c, at);
      Keyed(after) && OnlyTouches(db, after, {c.run.uid}) && Repaired(after, c, at)
  {
    ExpireTouchesOne(db, c.run, at);
  }

  lemma RepairedStays(mid: Db, after: Db, c: Ledger.Candidate, at: nat, uid: string)
    requires Keyed(mid) && Repaired(mid, c, at) && OnlyTouches(mid, after, {uid}) && uid != c.run.uid
    ensures Repaired(after, c, at)
  {
  }

  lemma RepairNext(db: Db, mid: Db, after: Db, c: Ledger.Candidate, at: nat, uids: set<string>)
    requires Keyed(db) && Keyed(mid) && OnlyTouches(db, mid, uids) && Read(db, c) && c.run.uid !in uids
    requires c.run.uid in db.results && db.results[c.run.uid] == c.run && after == PendingRepair(mid, c, at)
    ensures Keyed(after) && OnlyTouches(db, after, uids + {c.run.uid}) && OnlyTouches(mid, after, {c.run.uid})
    ensures Repaired(after, c, at)
  {
    hide PendingRepair, Repaired;
    UntouchedRead(db, mid, c, uids);
    RepairOne(mid, c, at);
    OnlyTouchesMore(db, mid, after, uids, {c.run.uid});
  }

  lemma UntouchedRead(db: Db, mid: Db, c: Ledger.Candidate, uids: set<string>)
    requires Keyed(db) && Keyed(mid) && OnlyTouches(db, mid, uids) && Read(db, c) && c.run.uid !in uids
    requires c.run.uid in db.results && db.results[c.run.uid] == c.run
    ensures c.run.uid in mid.results && mid.results[c.run.uid] == c.run && Read(mid, c)
  {
  }

  /** The pending pass: a run whose dispatch is still the relay's is left alone, a missing
      dispatch is written again, a run whose message is gone is expired; and nothing else
      changes. */
  lemma {:induction false} PendingPassRepairs(db: Db, cs: seq<Ledger.Candidate>, at: nat)
    requires Keyed(db) && Current(db, RunsOf(cs)) && forall i :: 0 <= i < |cs| ==> Read(db, cs[i])
    ensures var after := PendingPass(db, cs, at);
      && Keyed(after) && OnlyTouches(db, after, Uids(RunsOf(cs)))
      && forall i :: 0 <= i < |cs| ==> Repaired(after, cs[i], at)
  {
    hide PendingRepair, Keyed, Current, Repaired, OnlyTouches, Read;
    if cs == [] {
      assert Uids(RunsOf(cs)) == {};
      EmptyPass(db);
    } else {
      var n := |cs| - 1;
      assert RunsOf(cs[..n]) == RunsOf(cs)[..n];
      SplitRuns(db, RunsOf(cs), n);
      var c := cs[n];
      var mid, after := PendingPass(db, cs[..n], at), PendingPass(db, cs, at);
      PendingPassRepairs(db, cs[..n], at);
      RepairNext(db, mid, after, c, at, Uids(RunsOf(cs[..n])));
      forall i | 0 <= i < n ensures Repaired(after, cs[i], at) {
        assert cs[..n][i] == cs[i] && RunsOf(cs)[i].uid != RunsOf(cs)[n].uid;
        RepairedStays(mid, after, cs[i], at, c.run.uid);
      }
    }
  }

  function CountLost(cs: seq<Ledger.Candidate>): nat {
    if cs == [] then 0
    else
      var c := cs[|cs| - 1];
      CountLost(cs[..|cs| - 1]) + if c.dispatch.Some? && !C.Outstanding(c.dispatch.value) then 1 else 0
  }

  function CountMissing(cs: seq<Ledger.Candidate>): nat {
    if cs == [] then 0 else CountMissing(cs[..|cs| - 1]) + if cs[|cs| - 1].dispatch.None? then 1 else 0
  }

  lemma RepairCounts(db: Db, c: Ledger.Candidate)
    requires Keyed(db) && c.run.uid in db.results && db.results[c.run.uid] == c.run && Read(db, c)
    ensures Guard(db, c.run) && !c.run.status.IsTerminal()
    ensures c.dispatch.None? ==> DispatchEvent(c.run.uid, c.run.version) !in db.outbox
  {
  }

  /** Undisturbed, the pass counts every lost message as an expiry and every missing row as a
      re-dispatch. */
  lemma {:induction false} PendingPassCounts(db: Db, cs: seq<Ledger.Candidate>, at: nat, report: ScanReport)
    requires Keyed(db) && Current(db, RunsOf(cs)) && forall i :: 0 <= i < |cs| ==> Read(db, cs[i])
    ensures PendingReport(db, cs, at, report) == report.(
      expiredPending := report.expiredPending + CountLost(cs), redispatched := report.redispatched + CountMissing(cs))
  {
    hide PendingRepair, PendingPass, Keyed, Current, Repaired, OnlyTouches, Read, Guard;
    if cs != [] {
      var n := |cs| - 1;
      assert RunsOf(cs[..n]) == RunsOf(cs)[..n];
      SplitRuns(db, RunsOf(cs), n);
      var mid := PendingPass(db, cs[..n], at);
      PendingPassRepairs(db, cs[..n], at);
      PendingPassCounts(db, cs[..n], at, report);
      UntouchedRead(db, mid, cs[n], Uids(RunsOf(cs[..n])));
      RepairCounts(mid, cs[n]);
    }
  }

  // ----- the sweep -----

  /** Rows as the stale-dispatch query reads them: unretired, of a run that is over, each once. */
  ghost predicate ReadStale(db: Db, stale: seq<Y.Stale>) {
    && (forall i :: 0 <= i < |stale| ==> StaleRow(db, stale[i]))
    && (forall i, j :: 0 <= i < j < |stale| ==> stale[i].row.event != stale[j].row.event)
  }

  ghost predicate StaleRow(db: Db, d: Y.Stale) {
    var e := d.row.event;
    && e in db.outbox && db.outbox[e] == d.row && d.row.retiredAt.None? && HasEnded(db, d.row.uid)
    && (d.delivered <==> ClaimedThrough(db, d.row))
  }

  lemma SplitStale(db: Db, stale: seq<Y.Stale>, n: nat)
    requires ReadStale(db, stale) && |stale| == n + 1
    ensures ReadStale(db, stale[..n]) && StaleRow(db, stale[n])
    ensures forall i :: 0 <= i < n ==> stale[i].row.event != stale[n].row.event
  {
  }

  /** Published where it can be addressed, and its run not claimed through it. */
  predicate MayBeQueued(d: Y.Stale) {
    d.row.publishedAt.Some? && d.row.publishedSeq != 0 && !d.delivered
  }

  /** The run's record, deleted or not, names this dispatch. */
  ghost predicate ClaimedThrough(db: Db, row: Row) {
    || (row.uid in db.results && db.results[row.uid].dispatch == Some(row.event))
    || (row.uid !in db.results && row.uid in db.deleted && db.deleted[row.uid].dispatch == Some(row.event))
  }

  function SweptRow(d: Y.Stale, withdrawn: bool, at: nat): Row {
    if Withheld(d, withdrawn) then d.row else d.row.(retiredAt := Some(at), claimedBy := "", claimExpires := None)
  }

  lemma {:induction false} SweepLeaves(db: Db, stale: seq<Y.Stale>, withdrawn: seq<bool>, at: nat, e: EventId)
    requires |withdrawn| == |stale| && e in db.outbox && forall i :: 0 <= i < |stale| ==> stale[i].row.event != e
    ensures var after := SweepRows(db, stale, withdrawn, at); e in after.outbox && after.outbox[e] == db.outbox[e]
  {
    if stale != [] {
      SweepLeaves(db, stale[..|stale| - 1], withdrawn[..|stale| - 1], at, e);
    }
  }

  lemma {:induction false} SweepRetiresRow(db: Db, stale: seq<Y.Stale>, withdrawn: seq<bool>, at: nat, i: nat)
    requires |withdrawn| == |stale| && ReadStale(db, stale) && i < |stale|
    ensures var after := SweepRows(db, stale, withdrawn, at);
      stale[i].row.event in after.outbox && after.outbox[stale[i].row.event] == SweptRow(stale[i], withdrawn[i], at)
  {
    var n := |stale| - 1;
    SplitStale(db, stale, n);
    if i < n {
      assert stale[..n][i] == stale[i] && withdrawn[..n][i] == withdrawn[i];
      SweepRetiresRow(db, stale[..n], withdrawn[..n], at, i);
    } else {
      SweepLeaves(db, stale[..n], withdrawn[..n], at, stale[n].row.event);
    }
  }

  lemma {:induction false} SweepIsForRows(db: Db, stale: seq<Y.Stale>, withdrawn: seq<bool>, at: nat)
    requires |withdrawn| == |stale|
    ensures var after := SweepRows(db, stale, withdrawn, at);
      after.results == db.results && after.failures == db.failures && after.deleted == db.deleted && after.outbox.Keys == db.outbox.Keys
  {
    if stale != [] {
      SweepIsForRows(db, stale[..|stale| - 1], withdrawn[..|stale| - 1], at);
    }
  }

  /** Every stale row is retired except one whose message the broker would not give up; no other
      row changes, and no run at all. */
  lemma SweepRetires(db: Db, stale: seq<Y.Stale>, withdrawn: seq<bool>, at: nat)
    requires |withdrawn| == |stale| && ReadStale(db, stale)
    ensures var after := SweepRows(db, stale, withdrawn, at);
      && after.results == db.results && after.failures == db.failures && after.deleted == db.deleted && after.outbox.Keys == db.outbox.Keys
      && (forall i :: 0 <= i < |stale| ==>
            var row := after.outbox[stale[i].row.event];
            if MayBeQueued(stale[i]) && !withdrawn[i] then row == stale[i].row else C.RowRetired(stale[i].row, row, at))
      && (forall e :: e in db.outbox && (forall i :: 0 <= i < |stale| ==> stale[i].row.event != e) ==>
            after.outbox[e] == db.outbox[e])
  {
    hide SweepRows;
    SweepIsForRows(db, stale, withdrawn, at);
    forall i | 0 <= i < |stale|
      ensures var row := SweepRows(db, stale, withdrawn, at).outbox[stale[i].row.event];
        if MayBeQueued(stale[i]) && !withdrawn[i] then row == stale[i].row else C.RowRetired(stale[i].row, row, at)
    {
      SweepRetiresRow(db, stale, withdrawn, at, i);
    }
    forall e | e in db.outbox && (forall i :: 0 <= i < |stale| ==> stale[i].row.event != e)
      ensures SweepRows(db, stale, withdrawn, at).outbox[e] == db.outbox[e]
    {
      SweepLeaves(db, stale, withdrawn, at, e);
    }
  }

  /** The messages a sweep takes out of the queue: those it could withdraw, and no others. */
  lemma {:induction false} SweepWithdraws(queue: map<nat, Y.Msg>, stale: seq<Y.Stale>, withdrawn: seq<bool>, p: nat)
    requires |withdrawn| == |stale| && p in queue
    ensures p !in SweepQueue(queue, stale, withdrawn) <==>
      exists i :: 0 <= i < |stale| && MayBeQueued(stale[i]) && withdrawn[i] && stale[i].row.publishedSeq == p
    ensures p in SweepQueue(queue, stale, withdrawn) ==> SweepQueue(queue, stale, withdrawn)[p] == queue[p]
  {
    if stale != [] {
      var n := |stale| - 1;
      SweepWithdraws(queue, stale[..n], withdrawn[..n], p);
      assert forall i :: 0 <= i < n ==> stale[..n][i] == stale[i] && withdrawn[..n][i] == withdrawn[i];
    }
  }

  /** A row is never retired while its withdrawable message is still queued: the record of the
      message is not lost before the message is. */
  lemma RetiredMeansWithdrawn(db: Db, queue: map<nat, Y.Msg>, stale: seq<Y.Stale>, withdrawn: seq<bool>, at: nat, i: nat)
    requires |withdrawn| == |stale| && ReadStale(db, stale) && i < |stale| && MayBeQueued(stale[i])
    ensures var e := stale[i].row.event; var after := SweepRows(db, stale, withdrawn, at);
      e in after.outbox && (after.outbox[e].retiredAt.Some? <==> withdrawn[i])
    ensures withdrawn[i] ==> stale[i].row.publishedSeq !in SweepQueue(queue, stale, withdrawn)
  {
    SweepRetires(db, stale, withdrawn, at);
    if stale[i].row.publishedSeq in queue {
      SweepWithdraws(queue, stale, withdrawn, stale[i].row.publishedSeq);
    } else {
      SweepAddsNothing(queue, stale, withdrawn);
    }
  }

  lemma {:induction false} SweepAddsNothing(queue: map<nat, Y.Msg>, stale: seq<Y.Stale>, withdrawn: seq<bool>)
    requires |withdrawn| == |stale|
    ensures SweepQueue(queue, stale, withdrawn).Keys <= queue.Keys
  {
    if stale != [] {
      SweepAddsNothing(queue, stale[..|stale| - 1], withdrawn[..|stale| - 1]);
    }
  }

  // ----- a whole scan -----

  /** The three kinds of work a scan looks for: a lease that has run out, a run long pending whose
      dispatch is not the relay's, and an unretired dispatch of a run that is over. */
  ghost predicate IsLapsed(db: Db, cfg: Config, at: nat, u: string) {
    u in db.results && HasLapsed(db.results[u], cfg, at)
  }

  /** Running with a deadline that passed by more than the grace. */
  predicate HasLapsed(r: Result, cfg: Config, at: nat) {
    r.status == Running && r.deadline.Some? && 0 < r.deadline.value && r.deadline.value + cfg.leaseGrace < at
  }

  /** Pending for longer than a message may live and the grace on top. */
  predicate IsOverdue(r: Result, cfg: Config, at: nat) {
    r.status == Pending && r.createdAt + cfg.maxJobAge + cfg.pendingGrace < at
  }

  /** The expiry of a run, and the scan of a pending one, are what the protocol lets the reconciler
      do at that time, no sooner and no later. */
  lemma ListedIffEnabled(l: Ledger.State, r: Result, at: nat)
    requires r in l.stored && at <= l.clock
    ensures HasLapsed(r, l.cfg, at) <==> Ledger.Enabled(l, Ledger.ExpireRunning(r, at))
    ensures IsOverdue(r, l.cfg, at) <==> Ledger.Enabled(l, Ledger.ScanPending(r, at))
  {
  }

  ghost predicate IsStuck(db: Db, cfg: Config, at: nat, u: string) {
    u in db.results && IsOverdue(db.results[u], cfg, at) &&
    var e := EventId(u, db.results[u].version);
    e in db.outbox ==> !C.Outstanding(db.outbox[e])
  }

  ghost predicate IsLeftover(db: Db, e: EventId) {
    e in db.outbox && db.outbox[e].retiredAt.None? && HasEnded(db, db.outbox[e].uid)
  }

  /** Gone, or in a state it never leaves. */
  ghost predicate HasEnded(db: Db, u: string) {
    u in db.results ==> db.results[u].status in {Completed, Errored, Expired}
  }

  /** Batches as the queries read them; how much of the backlog they cover is open. */
  ghost predicate ReadLapsed(db: Db, cfg: Config, at: nat, runs: seq<Result>) {
    Current(db, runs) && forall i :: 0 <= i < |runs| ==> HasLapsed(runs[i], cfg, at)
  }

  ghost predicate ReadPending(db: Db, cfg: Config, at: nat, cs: seq<Ledger.Candidate>) {
    Current(db, RunsOf(cs)) && forall i :: 0 <= i < |cs| ==> Read(db, cs[i]) && IsOverdue(cs[i].run, cfg, at)
  }

  /** The sweep deals with this dispatch: it is in the batch, and its message, if it has one to
      withdraw, was given up. */
  ghost predicate Swept(stale: seq<Y.Stale>, withdrawn: seq<bool>, e: EventId)
    requires |withdrawn| == |stale|
  {
    exists i :: 0 <= i < |stale| && stale[i].row.event == e && !(MayBeQueued(stale[i]) && !withdrawn[i])
  }

  lemma UidIn(runs: seq<Result>, u: string) returns (i: nat)
    requires u in Uids(runs)
    ensures i < |runs| && runs[i].uid == u
  {
    i :| 0 <= i < |runs| && runs[i].uid == u;
  }

  lemma FirstPassClears(db: Db, cfg: Config, at: nat, runs: seq<Result>, u: string)
    requires Keyed(db) && ReadLapsed(db, cfg, at, runs)
    ensures var after := ExpirePass(db, runs, at);
      && Keyed(after)
      && (IsLapsed(after, cfg, at, u) <==> IsLapsed(db, cfg, at, u) && u !in Uids(runs))
      && (IsStuck(after, cfg, at, u) <==> IsStuck(db, cfg, at, u))
  {
    hide ExpirePass;
    ExpirePassExpires(db, runs, at);
    if u in Uids(runs) {
      var i := UidIn(runs, u);
      assert Ended(ExpirePass(db, runs, at), runs[i], at);
    }
  }

  lemma SecondPassClears(db: Db, cfg: Config, at: nat, cs: seq<Ledger.Candidate>, u: string)
    requires Keyed(db) && ReadPending(db, cfg, at, cs)
    ensures var after := PendingPass(db, cs, at);
      && Keyed(after)
      && (IsLapsed(after, cfg, at, u) <==> IsLapsed(db, cfg, at, u))
      && (IsStuck(after, cfg, at, u) <==> IsStuck(db, cfg, at, u) && u !in Uids(RunsOf(cs)))
  {
    hide PendingPass;
    PendingPassRepairs(db, cs, at);
    if u in Uids(RunsOf(cs)) {
      var i := UidIn(RunsOf(cs), u);
      assert Repaired(PendingPass(db, cs, at), cs[i], at) && cs[i].run.uid == u && Read(db, cs[i]);
    }
  }

  lemma SweepClears(db: Db, cfg: Config, at: nat, stale: seq<Y.Stale>, withdrawn: seq<bool>, u: string)
    requires Keyed(db) && ReadStale(db, stale) && |withdrawn| == |stale|
    ensures var after := SweepRows(db, stale, withdrawn, at);
      && (IsLapsed(after, cfg, at, u) <==> IsLapsed(db, cfg, at, u))
      && (IsStuck(after, cfg, at, u) <==> IsStuck(db, cfg, at, u))
  {
    hide SweepRows;
    SweepIsForRows(db, stale, withdrawn, at);
    if u in db.results && db.results[u].status == Pending {
      var e := DispatchEvent(u, db.results[u].version);
      if e in db.outbox {
        PendingIsNotStale(db, stale, e);
        SweepLeaves(db, stale, withdrawn, at, e);
      }
    }
  }

  lemma PendingIsNotStale(db: Db, stale: seq<Y.Stale>, e: EventId)
    requires Keyed(db) && ReadStale(db, stale) && e in db.outbox
    requires e.uid in db.results && db.results[e.uid].status == Pending
    ensures forall i :: 0 <= i < |stale| ==> stale[i].row.event != e
  {
    forall i | 0 <= i < |stale| ensures stale[i].row.event != e {
      assert StaleRow(db, stale[i]);
    }
  }

  lemma SweepClearsRow(db: Db, at: nat, stale: seq<Y.Stale>, withdrawn: seq<bool>, e: EventId)
    requires ReadStale(db, stale) && |withdrawn| == |stale|
    ensures IsLeftover(SweepRows(db, stale, withdrawn, at), e) <==> IsLeftover(db, e) && !Swept(stale, withdrawn, e)
  {
    hide SweepRows;
    SweepRetires(db, stale, withdrawn, at);
    if i :| 0 <= i < |stale| && stale[i].row.event == e {
      assert StaleRow(db, stale[i]);
      assert Swept(stale, withdrawn, e) <==> !(MayBeQueued(stale[i]) && !withdrawn[i]);
    }
  }

  /** A whole undisturbed scan, whatever its batches cover and whichever withdrawals succeed, takes
      exactly what it listed out of the backlog, makes no new work, and withdraws exactly the
      messages it was given. */
  lemma ScanClears(db: Db, queue: map<nat, Y.Msg>, cfg: Config, at: nat,
                   runs: seq<Result>, cs: seq<Ledger.Candidate>, stale: seq<Y.Stale>, withdrawn: seq<bool>)
    requires Keyed(db) && ReadLapsed(db, cfg, at, runs)
    requires ReadPending(ExpirePass(db, runs, at), cfg, at, cs)
    requires ReadStale(PendingPass(ExpirePass(db, runs, at), cs, at), stale) && |withdrawn| == |stale|
    ensures var swept := PendingPass(ExpirePass(db, runs, at), cs, at);
      var after := SweepRows(swept, stale, withdrawn, at);
      && (forall u :: IsLapsed(after, cfg, at, u) <==> IsLapsed(db, cfg, at, u) && u !in Uids(runs))
      && (forall u :: IsStuck(after, cfg, at, u) <==> IsStuck(db, cfg, at, u) && u !in Uids(RunsOf(cs)))
      && (forall e :: IsLeftover(after, e) <==> IsLeftover(swept, e) && !Swept(stale, withdrawn, e))
    ensures forall p :: p in queue ==>
      (p !in SweepQueue(queue, stale, withdrawn) <==>
         exists i :: 0 <= i < |stale| && MayBeQueued(stale[i]) && withdrawn[i] && stale[i].row.publishedSeq == p)
  {
    hide IsLapsed, IsStuck, IsLeftover, Swept, ReadLapsed, ReadPending, ReadStale, Keyed;
    var db1 := ExpirePass(db, runs, at);
    var db2 := PendingPass(db1, cs, at);
    var after := SweepRows(db2, stale, withdrawn, at);
    forall u
      ensures IsLapsed(after, cfg, at, u) <==> IsLapsed(db, cfg, at, u) && u !in Uids(runs)
      ensures IsStuck(after, cfg, at, u) <==> IsStuck(db, cfg, at, u) && u !in Uids(RunsOf(cs))
    {
      FirstPassClears(db, cfg, at, runs, u);
      SecondPassClears(db1, cfg, at, cs, u);
      SweepClears(db2, cfg, at, stale, withdrawn, u);
    }
    forall e ensures IsLeftover(after, e) <==> IsLeftover(db2, e) && !Swept(stale, withdrawn, e) {
      SweepClearsRow(db2, at, stale, withdrawn, e);
    }
    forall p | p in queue
      ensures p !in SweepQueue(queue, stale, withdrawn) <==>
        exists i :: 0 <= i < |stale| && MayBeQueued(stale[i]) && withdrawn[i] && stale[i].row.publishedSeq == p
    {
      SweepWithdraws(queue, stale, withdrawn, p);
    }
  }

  /** So a scan whose batches cover the backlog and whose withdrawals all succeed leaves nothing
      to do. */
  lemma ScanSettles(db: Db, queue: map<nat, Y.Msg>, cfg: Config, at: nat,
                    runs: seq<Result>, cs: seq<Ledger.Candidate>, stale: seq<Y.Stale>, withdrawn: seq<bool>)
    requires Keyed(db) && ReadLapsed(db, cfg, at, runs)
    requires ReadPending(ExpirePass(db, runs, at), cfg, at, cs)
    requires ReadStale(PendingPass(ExpirePass(db, runs, at), cs, at), stale) && |withdrawn| == |stale|
    requires forall u :: IsLapsed(db, cfg, at, u) ==> u in Uids(runs)
    requires forall u :: IsStuck(db, cfg, at, u) ==> u in Uids(RunsOf(cs))
    requires forall e :: IsLeftover(PendingPass(ExpirePass(db, runs, at), cs, at), e) ==> Swept(stale, withdrawn, e)
    ensures var after := SweepRows(PendingPass(ExpirePass(db, runs, at), cs, at), stale, withdrawn, at);
      && (forall u :: !IsLapsed(after, cfg, at, u) && !IsStuck(after, cfg, at, u))
      && (forall e :: !IsLeftover(after, e))
  {
    hide IsLapsed, IsStuck, IsLeftover, Swept, ReadLapsed, ReadPending, ReadStale, Keyed;
    ScanClears(db, queue, cfg, at, runs, cs, stale, withdrawn);
  }
}
