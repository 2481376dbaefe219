/** Every ledger step keeps the invariant and only lets the state evolve forward. */
module LedgerProof {
  import opened Domain
  import opened Options
  import opened Tables
  import opened Ledger
  import opened LedgerInv

  // ----- runs that come into being -----

  ghost predicate Insertable(l: State, r: Result, dispatched: bool, snapshot: Snapshot) {
    && r.uid != "" && r.uid !in l.used && r.version == CREATED_VERSION && r.snapshot == snapshot
    && r.createdAt == l.clock && r.dispatch.None? && r.deadline.None?
    && (r.status == Pending || r.status == Errored)
    && (r.status == Pending ==> !snapshot.IsZero())
    && (dispatched <==> r.status == Pending)
  }

  lemma InsertKeeps(l: State, r: Result, dispatched: bool, snapshot: Snapshot)
    requires Inv(l) && Insertable(l, r, dispatched, snapshot)
    ensures var m := Insert(l, r, dispatched, snapshot);
      && UidsOk(m) && RunsOk(m) && CapsOk(m) && OutboxOk(m) && ScansOk(m) && ScenariosOk(m) && Evolves(l, m)
      && (forall f :: f in l.filed ==> FailureOk(m, f))
      && (forall q :: q in l.stored ==> RetryLinked(m, q))
  {
    var m := Insert(l, r, dispatched, snapshot);
    InsertKeepsRuns(l, r, dispatched, snapshot);
    InsertKeepsOutbox(l, r, dispatched, snapshot);
    InsertEvolves(l, r, dispatched, snapshot);
    CapsKept(l, m);
    ScansKept(l, m);
    forall f | f in l.filed ensures FailureOk(m, f) { assert FailureOk(l, f); }
    forall q | q in l.stored ensures RetryLinked(m, q) { assert RetryLinked(l, q); }
  }

  lemma InsertKeepsRuns(l: State, r: Result, dispatched: bool, snapshot: Snapshot)
    requires Inv(l) && Insertable(l, r, dispatched, snapshot)
    ensures RunsOk(Insert(l, r, dispatched, snapshot))
  {
    var m := Insert(l, r, dispatched, snapshot);
    forall q | q in l.stored ensures RunOk(m, q) && q.uid != r.uid { assert RunOk(l, q); }
    assert RunOk(m, r);
    forall p, q | p in m.stored && q in m.stored ensures Consistent(p, q) {
      if p != r && q != r {
        assert p in l.stored && q in l.stored;
      }
    }
  }

  lemma NewEvent(l: State, uid: string)
    requires OutboxOk(l) && uid !in l.used
    ensures var e := DispatchEvent(uid, CREATED_VERSION); e !in l.routed && e !in l.db.outbox
  {
    var e := DispatchEvent(uid, CREATED_VERSION);
    assert e in l.routed ==> RoutedOk(l, e);
    assert e in l.db.outbox ==> RowOk(l, e);
  }

  lemma InsertEvolves(l: State, r: Result, dispatched: bool, snapshot: Snapshot)
    requires Inv(l) && Insertable(l, r, dispatched, snapshot)
    ensures Evolves(l, Insert(l, r, dispatched, snapshot))
  {
    hide FailuresOk, CapsOk, ScansOk, OutboxOk, RunOk, Consistent, RunEvolves;
    var m := Insert(l, r, dispatched, snapshot);
    NewEvent(l, r.uid);
    forall u | u in l.used ensures RunEvolves(l, m, u) {
      OthersStay(l, r, dispatched, snapshot, u);
    }
  }

  lemma InsertKeepsOutbox(l: State, r: Result, dispatched: bool, snapshot: Snapshot)
    requires Inv(l) && Insertable(l, r, dispatched, snapshot)
    ensures OutboxOk(Insert(l, r, dispatched, snapshot))
  {
    hide FailuresOk, CapsOk, ScansOk, Consistent;
    var m := Insert(l, r, dispatched, snapshot);
    NewEvent(l, r.uid);
    forall e | e in m.db.outbox ensures RowOk(m, e) { assert e in l.db.outbox ==> RowOk(l, e); }
    forall e | e in m.routed ensures RoutedOk(m, e) { assert e in l.routed ==> RoutedOk(l, e); }
    forall q | q in m.stored ensures Dispatched(m, q) {
      if q in l.stored {
        assert Dispatched(l, q) && RunOk(l, q);
      }
    }
    forall u | u in m.db.results ensures Awaited(m, u) { assert u in l.db.results ==> Awaited(l, u); }
  }

  lemma OthersStay(l: State, r: Result, dispatched: bool, snapshot: Snapshot, u: string)
    requires RunsOk(l) && r.uid !in l.used && u in l.used
    ensures RunEvolves(l, Insert(l, r, dispatched, snapshot), u)
  {
    assert u in l.db.results ==> Consistent(l.db.results[u], l.db.results[u]);
  }

  lemma CreateKeeps(l: State, uid: string, s: Scenario, runner: string, stamped: bool)
    requires Inv(l) && uid !in l.used && uid != "" && s.name != "" && CreationAllowed(s)
    ensures var m := CreateStep(l, uid, s, runner, stamped); Inv(m) && Evolves(l, m)
  {
    hide RunsOk, CapsOk, ScansOk, OutboxOk, Evolves, FailureOk, FailureConsistent;
    var r := NewRun(uid, s, runner, stamped, l.clock);
    InsertKeeps(l, r, ShouldDispatch(r, s), NewExecutionSnapshot(s));
  }

  // ----- claims and reports -----

  lemma ClaimWriteKeeps(l: State, uid: string, who: Claimant, request: ClaimRequest, entry: Option<Result>, at: nat)
    requires Inv(l) && Loaded(l, uid, entry) && at <= l.clock
    ensures var m := ClaimWrite(l, Adjudicate(entry, who, request, at, l.cfg.maxRunDuration), entry, at);
      Inv(m) && Evolves(l, m)
  {
    if entry.Some? {
      assert RunOk(l, entry.value);
    }
    match Adjudicate(entry, who, request, at, l.cfg.maxRunDuration) {
      case Take(next) => WriteKeeps(l, entry.value, next);
      case _ => EvolvesReflexive(l);
    }
  }

  lemma ClaimKeeps(l: State, uid: string, who: Claimant, request: ClaimRequest, entry: Option<Result>, at: nat)
    requires Inv(l) && Loaded(l, uid, entry) && at <= l.clock
    ensures var m := ClaimStep(l, who, request, entry, at); Inv(m) && Evolves(l, m)
  {
    ClaimWriteKeeps(l, uid, who, request, entry, at);
    var l1 := ClaimWrite(l, Adjudicate(entry, who, request, at, l.cfg.maxRunDuration), entry, at);
    match ClaimAnswer(l, who, request, entry, at) {
      case Granted(cap) =>
        GrantSpeaksFor(l, uid, who, request, entry, at);
        IssueKeeps(l1, cap);
        EvolvesTransitive(l, l1, Issue(l1, cap));
      case Denied(_) =>
    }
  }

  /** A granted claim speaks for the running record, whether it was just written or re-issued. */
  lemma GrantSpeaksFor(l: State, uid: string, who: Claimant, request: ClaimRequest, entry: Option<Result>, at: nat)
    requires Inv(l) && Loaded(l, uid, entry) && ClaimAnswer(l, who, request, entry, at).Granted?
    ensures var l1 := ClaimWrite(l, Adjudicate(entry, who, request, at, l.cfg.maxRunDuration), entry, at);
      exists r :: r in l1.stored && SpeaksFor(ClaimAnswer(l, who, request, entry, at).cap, r)
  {
    var cap := ClaimAnswer(l, who, request, entry, at).cap;
    assert RunOk(l, entry.value);
    match Adjudicate(entry, who, request, at, l.cfg.maxRunDuration) {
      case Take(next) => assert SpeaksFor(cap, Bumped(next));
      case Reissue => assert SpeaksFor(cap, entry.value);
    }
  }

  lemma IssueKeeps(l: State, cap: Capability)
    requires Inv(l) && exists r :: r in l.stored && SpeaksFor(cap, r)
    ensures Inv(Issue(l, cap)) && Evolves(l, Issue(l, cap))
  {
    var m := Issue(l, cap);
    forall c | c in m.issued ensures exists r :: r in m.stored && SpeaksFor(c, r) {
      if c != cap {
        assert c in l.issued;
      }
    }
    SameTables(l, m);
  }

  /** A step that leaves the tables and their histories alone keeps what is said about them. */
  lemma SameTables(l: State, m: State)
    requires Inv(l) && l.clock <= m.clock && m.cfg == l.cfg && m.db == l.db && m.stored == l.stored && m.filed == l.filed
    requires m.used == l.used && m.origin == l.origin && m.known == l.known && m.routed == l.routed && m.purged == l.purged && l.issued <= m.issued && l.scanned <= m.scanned
    ensures RunsOk(m) && OutboxOk(m) && FailuresOk(m) && Evolves(l, m)
    ensures m.issued == l.issued ==> CapsOk(m)
    ensures m.scanned == l.scanned ==> ScansOk(m)
  {
    hide SpeaksFor, ScanOk, OutboxOk, FailuresOk, RunsOk, RunEvolves;
    RunsSame(l, m);
    OutboxSame(l, m);
    FailuresSame(l, m);
    if m.issued == l.issued { CapsKept(l, m); }
    if m.scanned == l.scanned { ScansKept(l, m); }
  }

  lemma LegacyKeeps(l: State, who: Claimant, run: Result, at: nat, timeout: int)
    requires Inv(l) && run in l.stored && LegacyMayTake(run) && at <= l.clock
    ensures var m := LegacyStep(l, who, run, at, timeout); Inv(m) && Evolves(l, m)
  {
    var next := LegacyTake(run, who, at);
    assert RunOk(l, run);
    if Guard(l.db, next) {
      var l1 := Write(l, next);
      WriteKeeps(l, run, next);
      var cap := LegacyCapability(Bumped(next), who, at, timeout);
      assert Bumped(next) in l1.stored && SpeaksFor(cap, Bumped(next));
      IssueKeeps(l1, cap);
      EvolvesTransitive(l, l1, Issue(l1, cap));
    } else {
      EvolvesReflexive(l);
    }
  }

  lemma UpdateStatusKeeps(l: State, run: Result, at: nat, outcome: RunOutcome)
    requires Inv(l) && run in l.stored && at <= l.clock
    ensures var m := Write(l, CompleteRun(run, outcome, at)); Inv(m) && Evolves(l, m)
  {
    assert RunOk(l, run);
    WriteKeeps(l, run, CompleteRun(run, outcome, at));
  }

  lemma DeleteKeepsRows(l: State, uid: string)
    requires OutboxOk(l) && FailuresOk(l)
    ensures var m := Apply(l, Delete(uid)); OutboxOk(m) && FailuresOk(m)
  {
    hide OutboxOk, FailuresOk;
    OutboxSame(l, Apply(l, Delete(uid)));
    FailuresSame(l, Apply(l, Delete(uid)));
  }

  lemma DeleteKeepsRuns(l: State, uid: string)
    requires RunsOk(l)
    ensures RunsOk(Apply(l, Delete(uid)))
  {
    hide Consistent;
    var m := Apply(l, Delete(uid));
    forall r | r in m.stored ensures RunOk(m, r) { assert RunOk(l, r); }
  }

  lemma DeleteEvolves(l: State, uid: string)
    requires RunsOk(l)
    ensures Evolves(l, Apply(l, Delete(uid)))
  {
    hide RunsOk, RunEvolves;
    forall u | u in l.used ensures RunEvolves(l, Apply(l, Delete(uid)), u) {
      DeleteLeavesRun(l, uid, u);
    }
  }

  lemma DeleteLeavesRun(l: State, uid: string, u: string)
    requires RunsOk(l)
    ensures RunEvolves(l, Apply(l, Delete(uid)), u)
  {
    assert u in l.db.results ==> Consistent(l.db.results[u], l.db.results[u]);
  }

  lemma DeleteKeeps(l: State, uid: string)
    requires Inv(l) && uid in l.db.results
    ensures var m := Apply(l, Delete(uid)); Inv(m) && Evolves(l, m)
  {
    hide OutboxOk, FailuresOk, RunsOk, ScansOk, CapsOk, Evolves;
    var m := Apply(l, Delete(uid));
    DeleteKeepsRows(l, uid);
    DeleteKeepsRuns(l, uid);
    DeleteEvolves(l, uid);
    CapsKept(l, m);
    ScansKept(l, m);
  }

  // ----- the reconciler -----

  /** Rewriting rows forward, without retiring the row a pending run waits on. */
  ghost predicate RowsForward(l: State, rows: map<EventId, Row>) {
    && (forall e :: e in l.db.outbox ==> e in rows && RowEvolves(l.db.outbox[e], rows[e]))
    && (forall e :: e in rows ==> e in l.db.outbox)
    && (forall e :: e in rows && IsPending(l, e.uid) ==> rows[e].retiredAt == l.db.outbox[e].retiredAt)
  }

  lemma RowsForwardTables(l: State, m: State)
    requires OutboxOk(l) && FailuresOk(l) && RowsForward(l, m.db.outbox) && m == l.(db := l.db.(outbox := m.db.outbox))
    ensures OutboxOk(m) && FailuresOk(m)
  {
    hide FailuresOk;
    FailuresSame(l, m);
    forall r | r in m.stored ensures Dispatched(m, r) { assert Dispatched(l, r); }
    forall e | e in m.db.outbox ensures RowOk(m, e) { assert RowOk(l, e); }
    forall e | e in m.routed ensures RoutedOk(m, e) { assert RoutedOk(l, e); }
    forall u | u in m.db.results ensures Awaited(m, u) { assert Awaited(l, u); }
  }

  lemma RowsForwardKeeps(l: State, rows: map<EventId, Row>)
    requires Inv(l) && RowsForward(l, rows)
    ensures var m := l.(db := l.db.(outbox := rows)); Inv(m) && Evolves(l, m)
  {
    hide SpeaksFor, ScanOk, OutboxOk, FailuresOk, RunsOk, RunEvolves;
    var m := l.(db := l.db.(outbox := rows));
    RowsForwardTables(l, m);
    RunsSame(l, m);
    CapsKept(l, m);
    ScansKept(l, m);
  }

  /** Retiring the unpublished rows of a run that is not pending. */
  lemma RetireForward(l: State, uid: string, at: nat)
    requires Inv(l) && !IsPending(l, uid)
    ensures RowsForward(l, RetireUnpublished(l.db.outbox, uid, at))
  {
    var rows := RetireUnpublished(l.db.outbox, uid, at);
    forall e | e in rows && IsPending(l, e.uid) ensures rows[e].retiredAt == l.db.outbox[e].retiredAt {
      assert RowOk(l, e);
    }
  }

  lemma ExpireKeeps(l: State, run: Result, at: nat)
    requires Inv(l) && run in l.stored && at <= l.clock
    requires run.deadline.Some? ==> run.deadline.value + l.cfg.leaseGrace < at
    requires run.status == Running ==> run.deadline.Some?
    ensures var m := ExpireStep(l, run, at); Inv(m) && Evolves(l, m)
  {
    if !run.status.IsTerminal() && Guard(l.db, run) {
      assert RunOk(l, run);
      WriteKeeps(l, run, ExpireResult(run, at));
      var l1 := Write(l, ExpireResult(run, at));
      var rows := RetireUnpublished(l1.db.outbox, run.uid, at);
      RetireForward(l1, run.uid, at);
      RowsForwardKeeps(l1, rows);
      var m := l1.(db := l1.db.(outbox := rows));
      assert m == ExpireStep(l, run, at);
      EvolvesTransitive(l, l1, m);
    } else {
      EvolvesReflexive(l);
    }
  }

  lemma ScanKeeps(l: State, run: Result, at: nat)
    requires Inv(l) && run in l.stored && at <= l.clock && StalePending(run, l.cfg.PendingTimeout(), at)
    ensures var m := Apply(l, ScanPending(run, at)); Inv(m) && Evolves(l, m)
  {
    var m := Apply(l, ScanPending(run, at));
    SameTables(l, m);
    assert Dispatched(l, run);
    CapsKept(l, m);
    forall c | c in m.scanned ensures ScanOk(m, c) {
      assert c in l.scanned ==> ScanOk(l, c);
    }
  }

  /** A step on the outbox rows alone. */
  lemma RowsKept(l: State, m: State)
    requires Inv(l) && m == l.(db := l.db.(outbox := m.db.outbox), purged := m.purged) && l.purged <= m.purged
    requires (forall e :: e in m.db.outbox ==> RowOk(m, e)) && (forall e :: e in m.routed ==> RoutedOk(m, e))
    requires forall e :: e in l.db.outbox && e !in m.purged ==> e in m.db.outbox && m.db.outbox[e] == l.db.outbox[e]
    requires forall e :: e in m.db.outbox && e in l.db.outbox ==> m.db.outbox[e] == l.db.outbox[e]
    requires forall e :: e in m.db.outbox && e !in l.db.outbox ==> m.db.outbox[e].retiredAt.None?
    ensures Inv(m) && Evolves(l, m)
  {
    hide SpeaksFor, ScanOk, FailuresOk, RunsOk, RunEvolves;
    RunsSame(l, m);
    FailuresSame(l, m);
    forall r | r in m.stored ensures Dispatched(m, r) { assert Dispatched(l, r); }
    forall u | u in m.db.results ensures Awaited(m, u) { assert Awaited(l, u); }
    CapsKept(l, m);
    ScansKept(l, m);
  }

  lemma ReenqueueKeeps(l: State, run: Result)
    requires Inv(l) && run in l.stored && run.status == Pending
    ensures var m := l.(db := EnqueueDispatch(l.db, run, l.clock)); Inv(m) && Evolves(l, m)
  {
    hide RunsOk, CapsOk, ScansOk, FailuresOk, Evolves;
    var m := l.(db := EnqueueDispatch(l.db, run, l.clock));
    assert Dispatched(l, run) && RoutedOk(l, DispatchEvent(run.uid, run.version));
    forall e | e in m.db.outbox ensures RowOk(m, e) { assert e in l.db.outbox ==> RowOk(l, e); }
    forall e | e in m.routed ensures RoutedOk(m, e) { assert RoutedOk(l, e); }
    RowsKept(l, m);
  }

  lemma RemovalKeeps(l: State, event: EventId)
    requires Inv(l)
    ensures var m := Apply(l, RemoveRow(event)); Inv(m) && Evolves(l, m)
  {
    hide RunsOk, CapsOk, ScansOk, FailuresOk, Evolves;
    var m := Apply(l, RemoveRow(event));
    forall e | e in m.db.outbox ensures RowOk(m, e) { assert RowOk(l, e); }
    forall e | e in m.routed ensures RoutedOk(m, e) { assert RoutedOk(l, e); }
    RowsKept(l, m);
  }

  // ----- dead letters -----

  lemma StrandKeeps(l: State, uid: string, version: nat, entry: Option<Result>, at: nat)
    requires Inv(l) && Loaded(l, uid, entry) && at <= l.clock
    ensures var m := StrandStep(l, uid, version, entry, at); Inv(m) && Evolves(l, m)
  {
    if entry.Some? {
      assert RunOk(l, entry.value);
      if entry.value.status == Pending {
        WriteKeeps(l, entry.value, FailRun(entry.value, at));
      }
    }
  }

  /** Whatever was loaded, a dead dispatch of the run's creation version leaves it not pending:
      either the strand applied, or the guard lost to a transition that already moved it on. */
  lemma StrandSettles(l: State, uid: string, version: nat, entry: Option<Result>, at: nat)
    requires RunsOk(l) && Loaded(l, uid, entry) && uid != "" && (version == 0 || version == CREATED_VERSION)
    ensures !IsPending(StrandStep(l, uid, version, entry, at), uid)
  {
    if entry.Some? && uid in l.db.results {
      var current := l.db.results[uid];
      assert RunOk(l, entry.value) && RunOk(l, current);
      assert Consistent(entry.value, current) && Consistent(current, entry.value);
    }
  }

  function WithFailure(l: State, f: Failure): State {
    l.(db := l.db.(failures := l.db.failures[f.name := f]), filed := l.filed + {f})
  }

  /** The record and the strand touch different tables, so their order does not matter. */
  lemma FileOrder(l: State, name: string, report: Report, entry: Option<Result>, at: nat)
    requires name !in l.db.failures
    ensures FileStep(l, name, report, entry, at)
         == WithRecord(StrandStep(l, report.uid, report.version, entry, at), NewFailure(name, report))
  {
  }

  lemma FileKeeps(l: State, name: string, report: Report, entry: Option<Result>, at: nat)
    requires Inv(l) && Loaded(l, report.uid, entry) && at <= l.clock
    ensures var m := FileStep(l, name, report, entry, at); Inv(m) && Evolves(l, m)
  {
    if name !in l.db.failures {
      var l1 := StrandStep(l, report.uid, report.version, entry, at);
      StrandKeeps(l, report.uid, report.version, entry, at);
      if report.uid in l.used && Names(report, report.uid) {
        StrandSettles(l, report.uid, report.version, entry, at);
      }
      FileOrder(l, name, report, entry, at);
      RecordKeeps(l1, NewFailure(name, report));
      EvolvesTransitive(l, l1, WithRecord(l1, NewFailure(name, report)));
    } else {
      EvolvesReflexive(l);
    }
  }

  /** Putting a new record into the failures table. */
  lemma RecordKeeps(l: State, f: Failure)
    requires Inv(l) && f.name !in l.db.failures
    requires f.report.uid in l.used && Names(f.report, f.report.uid) ==> !IsPending(l, f.report.uid)
    ensures Inv(WithRecord(l, f)) && Evolves(l, WithRecord(l, f))
  {
    var m := WithRecord(l, f);
    forall g | g in l.filed ensures FailureOk(m, g) && g.name != f.name { assert FailureOk(l, g); }
    assert f.name !in l.known;
    assert FailureOk(m, f);
    FailureTableKeeps(l, m);
  }

  /** A step that only touches the failures table. */
  lemma FailureTableKeeps(l: State, m: State)
    requires Inv(l) && m == l.(db := l.db.(failures := m.db.failures), filed := m.filed, known := m.known)
    requires l.filed <= m.filed && l.known <= m.known && m.known <= m.db.failures.Keys && (forall f :: f in m.filed ==> FailureOk(m, f))
    requires forall k :: k in m.db.failures ==> m.db.failures[k].name == k && m.db.failures[k] in m.filed
    requires forall f, g :: f in m.filed && g in m.filed ==> FailureConsistent(f, g)
    requires forall k :: k in l.db.failures ==> k in m.db.failures && m.db.failures[k].report == l.db.failures[k].report
    requires forall k :: k in l.db.failures && l.db.failures[k].retry != "" ==> m.db.failures[k].retry == l.db.failures[k].retry
    ensures Inv(m) && Evolves(l, m)
  {
    hide SpeaksFor, ScanOk, OutboxOk, Consistent, RunEvolves, FailureOk, FailureConsistent;
    forall r | r in m.stored ensures RetryLinked(m, r) { assert RunOk(l, r) && RetryLinked(l, r); }
    RunsSame(l, m);
    OutboxSame(l, m);
    CapsKept(l, m);
    ScansKept(l, m);
  }

  lemma FailureGuardMeansUnchanged(l: State, f: Failure)
    requires FailuresOk(l) && f in l.filed && FailureGuard(l.db, f)
    ensures l.db.failures[f.name] == f
  {
    assert FailureConsistent(f, l.db.failures[f.name]);
  }

  /** The successor of the stored record, written over it. */
  lemma SucceedKeeps(l: State, f: Failure, g: Failure)
    requires Inv(l) && f in l.filed && f.name in l.db.failures && l.db.failures[f.name] == f
    requires g.name == f.name && g.rev == f.rev + 1 && g.report == f.report
    requires f.retry != "" ==> g.retry == f.retry
    ensures Inv(WithFailure(l, g)) && Evolves(l, WithFailure(l, g))
  {
    var m := WithFailure(l, g);
    forall h | h in m.filed ensures FailureOk(m, h) && FailureConsistent(h, g) && FailureConsistent(g, h) {
      assert FailureOk(l, f);
      if h != g {
        assert FailureOk(l, h) && FailureConsistent(h, f);
      }
    }
    FailureTableKeeps(l, m);
  }

  lemma ResolveKeeps(l: State, f: Failure)
    requires Inv(l) && f in l.filed
    ensures var m := ResolveStep(l, f); Inv(m) && Evolves(l, m)
  {
    hide OutboxOk, RunsOk, CapsOk, ScansOk, Evolves;
    if !f.resolved && FailureGuard(l.db, f) {
      FailureGuardMeansUnchanged(l, f);
      var g := f.(resolved := true, rev := f.rev + 1);
      SucceedKeeps(l, f, g);
      assert ResolveStep(l, f) == WithFailure(l, g);
    } else {
      EvolvesReflexive(l);
    }
  }

  /** The link is written first here, and the run added to it: the same state. */
  lemma RetryInTwo(l: State, f: Failure, original: Result, uid: string, resolve: bool)
    requires MayRetry(f, original) && FailureGuard(l.db, f) && original.uid in l.origin
    ensures RetryStep(l, f, original, uid, resolve)
         == Insert(WithFailure(l, Linked(f, uid, resolve)), RetryRun(uid, original, f, l.clock), true, l.origin[original.uid])
  {
  }

  lemma RetryInserts(l: State, f: Failure, original: Result, uid: string, resolve: bool)
    requires RunsOk(l) && original in l.stored && MayRetry(f, original) && uid !in l.used && uid != ""
    ensures original.uid in l.origin
    ensures Insertable(WithFailure(l, Linked(f, uid, resolve)), RetryRun(uid, original, f, l.clock), true, l.origin[original.uid])
  {
    assert RunOk(l, original);
  }

  lemma RetryLinks(l: State, f: Failure, r: Result, original: Result)
    requires FailuresOk(l) && f.name in l.db.failures && l.db.failures[f.name].retry == r.uid && r.retryOf == Some(f.name)
    requires l.db.failures[f.name].report.uid in l.origin && r.snapshot == l.origin[l.db.failures[f.name].report.uid]
    requires var m := Insert(l, r, true, r.snapshot);
      && r.uid !in l.used && r.version == CREATED_VERSION && f.report.uid in l.used
      && (forall g :: g in l.filed ==> FailureOk(m, g)) && (forall q :: q in l.stored ==> RetryLinked(m, q))
    requires l.db.failures[f.name].report == f.report
    requires original in l.stored && original.uid == f.report.uid && original.runner == r.runner
    ensures FailuresOk(Insert(l, r, true, r.snapshot))
  {
    hide FailureOk, FailureConsistent;
    var m := Insert(l, r, true, r.snapshot);
    assert original in m.stored && RoutedAs(m, DispatchEvent(r.uid, CREATED_VERSION), f.report.uid);
    assert RetryLinked(m, r);
  }

  lemma RetryKeeps(l: State, f: Failure, original: Result, uid: string, resolve: bool)
    requires Inv(l) && f in l.filed && original in l.stored && original.uid == f.report.uid && uid !in l.used && uid != ""
    ensures var m := RetryStep(l, f, original, uid, resolve); Inv(m) && Evolves(l, m)
  {
    if MayRetry(f, original) && FailureGuard(l.db, f) {
      hide CapsOk, ScansOk, OutboxOk, FailuresOk, Evolves, FailureOk, Insertable, Insert;
      FailureGuardMeansUnchanged(l, f);
      var g := Linked(f, uid, resolve);
      var l1 := WithFailure(l, g);
      SucceedKeeps(l, f, g);
      RetryInTwo(l, f, original, uid, resolve);
      RetryInserts(l, f, original, uid, resolve);
      assert RunOk(l, original);
      var r := RetryRun(uid, original, f, l.clock);
      InsertKeeps(l1, r, true, l.origin[original.uid]);
      var m := Insert(l1, r, true, l.origin[original.uid]);
      RetryLinks(l1, f, r, original);
      EvolvesTransitive(l, l1, m);
    } else {
      EvolvesReflexive(l);
    }
  }

  // ----- all steps -----

  lemma StepKeeps(l: State, step: Step)
    requires Inv(l) && Enabled(l, step)
    ensures Inv(Apply(l, step)) && Evolves(l, Apply(l, step))
  {
    match step {
      case EditScenario(name, s) => SameTables(l, Apply(l, step));
      case DropScenario(name) => SameTables(l, Apply(l, step));
      case Create(uid, name, runner, stamped) => CreateKeeps(l, uid, l.scenarios[name], runner, stamped);
      case Claim(uid, who, request, entry, at) => ClaimKeeps(l, uid, who, request, entry, at);
      case LegacyAuth(who, run, at, timeout) => LegacyKeeps(l, who, run, at, timeout);
      case UpdateStatus(token, version, run, at, outcome) => UpdateStatusKeeps(l, run, at, outcome);
      case Delete(uid) => DeleteKeeps(l, uid);
      case ExpireRunning(run, at) => ExpireKeeps(l, run, at);
      case ScanPending(run, at) => ScanKeeps(l, run, at);
      case ExpirePending(c) =>
        assert ScanOk(l, c) && RunOk(l, c.run);
        ExpireKeeps(l, c.run, c.at);
      case Reenqueue(c) =>
        assert ScanOk(l, c);
        ReenqueueKeeps(l, c.run);
      case RemoveRow(event) => RemovalKeeps(l, event);
      case FileFailure(name, report, entry, at) => FileKeeps(l, name, report, entry, at);
      case StrandUnplaced(event, entry, at) => StrandKeeps(l, event.uid, event.version, entry, at);
      case Retry(f, original, uid, resolve) => RetryKeeps(l, f, original, uid, resolve);
      case Resolve(f) => ResolveKeeps(l, f);
    }
  }
}
