/**
 What every ledger step keeps. The invariant is split by table; `Evolves` collects the facts
 that only ever grow, which is all the transport and the workers rely on.
 */
module LedgerInv {
  import opened Domain
  import opened Options
  import opened Tables
  import opened Ledger

  ghost predicate IsPending(l: State, uid: string) {
    uid in l.db.results && l.db.results[uid].status == Pending
  }

  /** The run is terminal or no longer there. */
  ghost predicate IsOver(l: State, uid: string) {
    uid in l.db.results ==> l.db.results[uid].status.IsTerminal()
  }

  function MaxRun(cfg: Config): nat {
    if cfg.maxRunDuration <= 0 then DEFAULT_MAX_RUN_DURATION else cfg.maxRunDuration
  }

  ghost predicate SameHolder(r: Result, q: Result) {
    r.worker == q.worker && r.runner == q.runner && r.dispatch == q.dispatch && r.deadline == q.deadline
  }

  // ----- runs -----

  ghost predicate RunOk(l: State, r: Result) {
    && r.uid != "" && r.uid in l.used && CREATED_VERSION <= r.version && r.createdAt <= l.clock
    && r.uid in l.origin && r.snapshot == l.origin[r.uid]
    && (r.status == Pending ==>
          r.version == CREATED_VERSION && r.dispatch.None? && r.deadline.None? && !r.snapshot.IsZero())
    && (r.status == Running ==>
          && r.version == CREATED_VERSION + 1
          && r.started.Some?
          && (r.deadline.Some? ==> r.deadline.value <= r.started.value + MaxRun(l.cfg)))
    && (r.status == Expired && r.deadline.Some? ==>
          r.ended.Some? && r.deadline.value + l.cfg.leaseGrace < r.ended.value <= l.clock)
  }

  /** Two committed versions of one run: the version determines the record, a run never returns
      to pending, a terminal run stays terminal, and whoever took a run is never replaced. */
  ghost predicate Consistent(r: Result, q: Result) {
    r.uid == q.uid && r.version <= q.version ==>
      && (r.version == q.version ==> r == q)
      && (r.status.IsTerminal() ==> q.status.IsTerminal())
      && (r.status != Pending ==> q.status != Pending && SameHolder(r, q))
      && (r.status == Pending && r.runner != "" && (q.status == Pending || q.dispatch.Some?) ==> q.runner == r.runner)
      && (r.status != Pending && r.version < q.version ==>
            q.status != Errored || r.status == Errored)
      && (r.status != Pending && r.version < q.version && q.status == Expired ==> q.deadline.Some?)
  }

  ghost predicate RunsOk(l: State) {
    && (forall u :: u in l.db.results ==> l.db.results[u].uid == u && l.db.results[u] in l.stored)
    && (forall r :: r in l.stored ==> RunOk(l, r))
    && (forall r, q :: r in l.stored && q in l.stored ==> Consistent(r, q))
    && (forall r :: r in l.stored && r.uid in l.db.results ==> r.version <= l.db.results[r.uid].version)
  }

  // ----- capabilities -----

  /** The capability speaks for exactly the running record `r`. */
  ghost predicate SpeaksFor(c: Capability, r: Result) {
    && r.status == Running && r.uid == c.uid && r.version == c.version
    && r.worker == c.worker && r.dispatch == c.dispatch && r.deadline == c.deadline
    && c.probe == r.snapshot
    && (c.deadline.Some? ==> c.expiry <= c.deadline.value + ARTIFACT_UPLOAD_GRACE < c.expiry + SECOND)
  }

  ghost predicate CapsOk(l: State) {
    forall c :: c in l.issued ==> exists r :: r in l.stored && SpeaksFor(c, r)
  }

  // ----- outbox -----

  ghost predicate RowOk(l: State, e: EventId) {
    e in l.db.outbox ==>
      var row := l.db.outbox[e];
      && row.event == e == DispatchEvent(row.uid, row.version) && e.version == CREATED_VERSION && e.uid in l.used
      && e in l.routed && row.runner == l.routed[e]
  }

  /** A dispatch once written keeps its row until somebody removes it. */
  ghost predicate RoutedOk(l: State, e: EventId) {
    e in l.routed ==> e.version == CREATED_VERSION && e.uid in l.used && (e in l.db.outbox || e in l.purged)
  }

  /** Every pending run ever committed had a row written with it, for the runner it was placed on. */
  ghost predicate Dispatched(l: State, r: Result) {
    r.status == Pending ==>
      var e := DispatchEvent(r.uid, r.version);
      e in l.routed && l.routed[e] == r.runner
  }

  ghost predicate Awaited(l: State, uid: string) {
    IsPending(l, uid) ==>
      var e := DispatchEvent(uid, CREATED_VERSION);
      e in l.db.outbox ==> l.db.outbox[e].retiredAt.None?
  }

  ghost predicate OutboxOk(l: State) {
    && (forall e :: e in l.db.outbox ==> RowOk(l, e))
    && (forall e :: e in l.routed ==> RoutedOk(l, e))
    && (forall r :: r in l.stored ==> Dispatched(l, r))
    && (forall u :: u in l.db.results ==> Awaited(l, u))
  }

  // ----- dead-letter records -----

  /** Two committed versions of one record: a retry, once linked, is never replaced. */
  ghost predicate FailureConsistent(f: Failure, g: Failure) {
    f.name == g.name && f.rev <= g.rev ==>
      && (f.rev == g.rev ==> f == g)
      && f.report == g.report
      && (f.retry != "" ==> g.retry == f.retry)
  }

  /** The report names the run at no version in particular, or at the one it was created at. */
  predicate Names(report: Report, uid: string) {
    report.uid == uid && (report.version == 0 || report.version == CREATED_VERSION)
  }

  /** A record filed when the run it names existed means that run is not pending. */
  ghost predicate FailureOk(l: State, f: Failure) {
    && f.name in l.db.failures && f.rev <= l.db.failures[f.name].rev
    && (f.name in l.known ==>
          f.report.uid in l.used && (Names(f.report, f.report.uid) ==> !IsPending(l, f.report.uid)))
  }

  /** The dispatch goes to the runner some committed record of the run names. */
  ghost predicate RoutedAs(l: State, e: EventId, uid: string) {
    e in l.routed && exists q :: q in l.stored && q.uid == uid && l.routed[e] == q.runner
  }

  /** A run created as a retry is the one its failure record is linked to, executes what the
      failed run was created to execute, and is dispatched to a runner that run was on. */
  ghost predicate RetryLinked(l: State, r: Result) {
    r.retryOf.Some? ==>
      var k := r.retryOf.value;
      && k in l.db.failures && l.db.failures[k].retry == r.uid
      && l.db.failures[k].report.uid in l.origin && r.snapshot == l.origin[l.db.failures[k].report.uid]
      && RoutedAs(l, DispatchEvent(r.uid, CREATED_VERSION), l.db.failures[k].report.uid)
  }

  ghost predicate FailuresOk(l: State) {
    && (forall k :: k in l.db.failures ==> l.db.failures[k].name == k && l.db.failures[k] in l.filed)
    && l.known <= l.db.failures.Keys
    && (forall f :: f in l.filed ==> FailureOk(l, f))
    && (forall f, g :: f in l.filed && g in l.filed ==> FailureConsistent(f, g))
    && (forall r :: r in l.stored ==> RetryLinked(l, r))
  }

  // ----- reconciler scans -----

  ghost predicate ScanOk(l: State, c: Candidate) {
    && c.run in l.stored && c.at <= l.clock && StalePending(c.run, l.cfg.PendingTimeout(), c.at)
    && (c.dispatch.Some? && !BelongsToRelay(c.dispatch.value) ==>
          var e := DispatchEvent(c.run.uid, c.run.version);
          e !in l.purged ==> e in l.db.outbox && !BelongsToRelay(l.db.outbox[e]))
  }

  ghost predicate ScansOk(l: State) {
    forall c :: c in l.scanned ==> ScanOk(l, c)
  }

  ghost predicate ScenariosOk(l: State) {
    forall n :: n in l.scenarios ==> l.scenarios[n].name == n != ""
  }

  ghost predicate UidsOk(l: State) {
    "" !in l.used && forall u :: u in l.origin ==> u in l.used
  }

  ghost predicate Inv(l: State) {
    UidsOk(l) && RunsOk(l) && CapsOk(l) && OutboxOk(l) && FailuresOk(l) && ScansOk(l) && ScenariosOk(l)
  }

  // ----- monotone facts -----

  ghost predicate RowEvolves(a: Row, b: Row) {
    && a.event == b.event && a.uid == b.uid && a.version == b.version && a.runner == b.runner
    && (a.publishedAt.Some? ==> b.publishedAt.Some?)
    && (a.retiredAt.Some? ==> b.retiredAt == a.retiredAt)
    && a.attempts <= b.attempts
  }

  ghost predicate RunEvolves(l: State, m: State, uid: string) {
    && (uid !in l.db.results ==> uid !in m.db.results)
    && (uid in l.db.results && uid in m.db.results ==>
          var r := l.db.results[uid]; var q := m.db.results[uid];
          r.uid == q.uid && r.version <= q.version && Consistent(r, q))
  }

  ghost predicate Evolves(l: State, m: State) {
    && l.clock <= m.clock && l.cfg == m.cfg
    && l.stored <= m.stored && l.filed <= m.filed && l.used <= m.used && l.issued <= m.issued && l.scanned <= m.scanned && l.known <= m.known
    && (forall u :: u in l.origin ==> u in m.origin && m.origin[u] == l.origin[u])
    && (forall u :: u in l.used ==> RunEvolves(l, m, u))
    && l.purged <= m.purged && (forall e :: e in l.routed ==> e in m.routed && m.routed[e] == l.routed[e])
    && (forall e :: e in l.db.outbox && e !in m.purged ==> e in m.db.outbox && RowEvolves(l.db.outbox[e], m.db.outbox[e]))
    && (forall k :: k in l.db.failures ==> k in m.db.failures && m.db.failures[k].report == l.db.failures[k].report)
  }

  lemma EvolvesReflexive(l: State)
    ensures Evolves(l, l)
  {
    forall u | u in l.used ensures RunEvolves(l, l, u) {}
  }

  lemma EvolvesTransitive(l: State, m: State, n: State)
    requires Evolves(l, m) && Evolves(m, n)
    ensures Evolves(l, n)
  {
    forall e | e in l.db.outbox && e !in n.purged ensures e in n.db.outbox && RowEvolves(l.db.outbox[e], n.db.outbox[e]) {
      assert RowEvolves(l.db.outbox[e], m.db.outbox[e]) && RowEvolves(m.db.outbox[e], n.db.outbox[e]);
    }
    forall u | u in l.used ensures RunEvolves(l, n, u) {
      assert RunEvolves(l, m, u) && RunEvolves(m, n, u);
    }
  }

  /** A run that is not pending never becomes pending; one that is over stays over. */
  lemma SettledStays(l: State, m: State, uid: string)
    requires Evolves(l, m) && uid in l.used
    ensures !IsPending(l, uid) ==> !IsPending(m, uid)
    ensures IsOver(l, uid) ==> IsOver(m, uid)
  {
    assert RunEvolves(l, m, uid);
  }

  // ----- the guarded write -----

  /** The transitions the program makes on a loaded run. */
  ghost predicate Legal(l: State, r: Result, next: Result) {
    && next.uid == r.uid && next.version == r.version && next.snapshot == r.snapshot
    && next.createdAt == r.createdAt && next.retryOf == r.retryOf
    && RunOk(l, next.(version := r.version + 1))
    && match r.status {
         case Pending => next.status != Pending && (r.runner != "" && next.dispatch.Some? ==> next.runner == r.runner)
         case _ =>
           && SameHolder(r, next)
           && (next.status == Completed || (next.status == Expired && next.deadline.Some?))
       }
  }

  /** The version guard compares one number; because a version determines the record, it
      compares the whole record. */
  lemma GuardMeansUnchanged(l: State, r: Result)
    requires RunsOk(l) && r in l.stored && Guard(l.db, r)
    ensures l.db.results[r.uid] == r
  {
    assert Consistent(l.db.results[r.uid], r);
  }

  lemma WriteKeepsRuns(l: State, r: Result, next: Result)
    requires RunsOk(l) && r in l.stored && Legal(l, r, next) && Guard(l.db, next)
    ensures RunsOk(Write(l, next))
  {
    var m := Write(l, next);
    var bumped := Bumped(next);
    GuardMeansUnchanged(l, r);
    forall q | q in l.stored ensures Consistent(q, bumped) && Consistent(bumped, q) {
      if q.uid == r.uid {
        assert q.version <= r.version;
        assert Consistent(q, r);
      }
    }
    assert forall q :: q in m.stored ==> RunOk(m, q) by {
      forall q | q in m.stored ensures RunOk(m, q) {
        assert q in l.stored ==> RunOk(l, q);
      }
    }
    forall p, q | p in m.stored && q in m.stored ensures Consistent(p, q) {
      if p != bumped && q != bumped {
        assert Consistent(p, q);
      }
    }
  }

  lemma WriteEvolves(l: State, r: Result, next: Result)
    requires RunsOk(l) && r in l.stored && Legal(l, r, next) && Guard(l.db, next)
    ensures Evolves(l, Write(l, next))
  {
    hide RunOk;
    var m := Write(l, next);
    GuardMeansUnchanged(l, r);
    forall u | u in l.used ensures RunEvolves(l, m, u) {
      WriteEvolvesRun(l, r, next, u);
    }
  }

  lemma WriteEvolvesRun(l: State, r: Result, next: Result, u: string)
    requires RunsOk(l) && r in l.stored && Legal(l, r, next) && Guard(l.db, next) && l.db.results[r.uid] == r
    ensures RunEvolves(l, Write(l, next), u)
  {
    assert u == r.uid ==> Consistent(r, Bumped(next));
    assert u in l.db.results ==> Consistent(l.db.results[u], l.db.results[u]);
  }

  // ----- what a step leaves alone -----

  lemma RunsSame(l: State, m: State)
    requires RunsOk(l) && l.clock <= m.clock && m.cfg == l.cfg && m.db.results == l.db.results && m.stored == l.stored
    requires m.used == l.used && m.origin == l.origin
    ensures RunsOk(m) && forall u :: u in l.used ==> RunEvolves(l, m, u)
  {
    hide Consistent;
    forall r | r in m.stored ensures RunOk(m, r) { assert RunOk(l, r); }
    forall u | u in l.used ensures RunEvolves(l, m, u) {
      if u in l.db.results {
        assert Consistent(l.db.results[u], l.db.results[u]);
      }
    }
  }

  /** The runs may change, as long as none becomes pending. */
  lemma OutboxSame(l: State, m: State)
    requires OutboxOk(l) && m.db.outbox == l.db.outbox && m.routed == l.routed && m.purged == l.purged && m.used == l.used
    requires m.stored == l.stored && forall u :: IsPending(m, u) ==> IsPending(l, u)
    ensures OutboxOk(m)
  {
    forall r | r in m.stored ensures Dispatched(m, r) { assert Dispatched(l, r); }
    forall e | e in m.db.outbox ensures RowOk(m, e) { assert RowOk(l, e); }
    forall e | e in m.routed ensures RoutedOk(m, e) { assert RoutedOk(l, e); }
    forall u | u in m.db.results ensures Awaited(m, u) { assert IsPending(m, u) ==> Awaited(l, u); }
  }

  lemma FailuresSame(l: State, m: State)
    requires FailuresOk(l) && m.db.failures == l.db.failures && m.filed == l.filed && m.known == l.known && m.stored == l.stored
    requires m.used == l.used && m.origin == l.origin && m.routed == l.routed
    requires forall u :: IsPending(m, u) ==> IsPending(l, u)
    ensures FailuresOk(m)
  {
    hide FailureConsistent;
    forall r | r in m.stored ensures RetryLinked(m, r) { assert RetryLinked(l, r); }
    forall f | f in m.filed ensures FailureOk(m, f) { assert FailureOk(l, f); }
  }

  /** Growing the set of committed runs takes nothing away from a capability. */
  lemma CapsKept(l: State, m: State)
    requires CapsOk(l) && l.stored <= m.stored && l.issued == m.issued
    ensures CapsOk(m)
  {
    forall c | c in m.issued ensures exists q :: q in m.stored && SpeaksFor(c, q) {
      var q :| q in l.stored && SpeaksFor(c, q);
      assert q in m.stored;
    }
  }

  lemma ScansKept(l: State, m: State)
    requires ScansOk(l) && Evolves(l, m) && m.scanned == l.scanned
    ensures ScansOk(m)
  {
    forall c | c in m.scanned ensures ScanOk(m, c) {
      assert ScanOk(l, c);
    }
  }

  lemma WriteKeeps(l: State, r: Result, next: Result)
    requires Inv(l) && r in l.stored && Legal(l, r, next)
    ensures Inv(Write(l, next)) && Evolves(l, Write(l, next))
  {
    var m := Write(l, next);
    if Guard(l.db, next) {
      WriteKeepsRuns(l, r, next);
      WriteEvolves(l, r, next);
      CapsKept(l, m);
      WriteKeepsOutbox(l, r, next);
      WriteKeepsFailures(l, r, next);
      ScansKept(l, m);
    }
  }

  lemma WriteKeepsOutbox(l: State, r: Result, next: Result)
    requires Inv(l) && r in l.stored && Legal(l, r, next) && Guard(l.db, next)
    ensures OutboxOk(Write(l, next))
  {
    var m := Write(l, next);
    GuardMeansUnchanged(l, r);
    assert next.status != Pending;
    forall e | e in m.db.outbox ensures RowOk(m, e) { assert RowOk(l, e); }
    forall e | e in m.routed ensures RoutedOk(m, e) { assert RoutedOk(l, e); }
    forall q | q in m.stored ensures Dispatched(m, q) { assert q in l.stored ==> Dispatched(l, q); }
    forall u | u in m.db.results ensures Awaited(m, u) { assert u in l.db.results && Awaited(l, u); }
  }

  lemma WriteKeepsFailures(l: State, r: Result, next: Result)
    requires Inv(l) && r in l.stored && Legal(l, r, next) && Guard(l.db, next)
    ensures FailuresOk(Write(l, next))
  {
    var m := Write(l, next);
    GuardMeansUnchanged(l, r);
    forall f | f in m.filed ensures FailureOk(m, f) { assert FailureOk(l, f); }
    forall q | q in m.stored ensures RetryLinked(m, q) {
      assert RetryLinked(l, r);
      assert q in l.stored ==> RetryLinked(l, q);
    }
  }
}
