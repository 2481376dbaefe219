/**
 The three tables of the control plane and the atomic writes made to them. Each function is
 one committed statement or transaction; `r` or `entry` is the record a caller loaded
 earlier, so it may be stale by the time the write happens.
 */
module Tables {
  import opened Domain
  import opened Options

  datatype Db = Db(
    results: map<string, Result>,
    deleted: map<string, Result>,
    outbox: map<EventId, Row>,
    failures: map<string, Failure>)

  function Load(db: Db, uid: string): Option<Result> {
    if uid in db.results then Some(db.results[uid]) else None
  }

  // ----- runs -----

  /** The version guard: the stored record is still at the version the caller loaded. */
  predicate Guard(db: Db, r: Result) {
    r.uid in db.results && db.results[r.uid].version == r.version
  }

  function Bumped(r: Result): Result {
    r.(version := r.version + 1)
  }

  /** `Update(WithVersion(r.version))`: applies and bumps, or does nothing. */
  function GuardedUpdate(db: Db, r: Result): Db {
    if Guard(db, r) then db.(results := db.results[r.uid := Bumped(r)]) else db
  }

  function CreateWithDispatch(db: Db, r: Result, dispatched: bool, now: nat): Db {
    var db1 := db.(results := db.results[r.uid := r]);
    if dispatched then
      db1.(outbox := db1.outbox[DispatchEvent(r.uid, r.version) := NewDispatchOutboxEntry(r, now)])
    else db1
  }

  /** Deletion is soft: the record leaves every lookup but stays in the table. */
  function DeleteRun(db: Db, uid: string): Db {
    if uid in db.results then db.(results := db.results - {uid}, deleted := db.deleted[uid := db.results[uid]]) else db
  }

  // ----- outbox rows -----

  function Retired(row: Row, at: nat): Row {
    row.(retiredAt := Some(at))
  }

  function RetireUnpublished(rows: map<EventId, Row>, uid: string, at: nat): map<EventId, Row> {
    map e | e in rows ::
      if rows[e].uid == uid && BelongsToRelay(rows[e]) then Retired(rows[e], at) else rows[e]
  }

  /** Records an expiry and retires the unpublished dispatch, or does nothing. */
  function ExpireRun(db: Db, r: Result, at: nat): Db {
    if r.status.IsTerminal() || !Guard(db, r) then db
    else GuardedUpdate(db, ExpireResult(r, at)).(outbox := RetireUnpublished(db.outbox, r.uid, at))
  }

  /** Insert with do-nothing on a conflicting event. */
  function EnqueueDispatch(db: Db, r: Result, now: nat): Db {
    var e := DispatchEvent(r.uid, r.version);
    if e in db.outbox then db else db.(outbox := db.outbox[e := NewDispatchOutboxEntry(r, now)])
  }

  predicate Due(row: Row, now: nat) {
    && BelongsToRelay(row)
    && row.notBefore <= now
    && (row.claimExpires.None? || row.claimExpires.value <= now)
  }

  /** The attempt is counted when the row is leased, not when it is published. */
  function Leased(row: Row, relay: string, expiry: nat): Row {
    row.(claimedBy := relay, claimExpires := Some(expiry), attempts := row.attempts + 1)
  }

  function ClaimRows(rows: map<EventId, Row>, chosen: set<EventId>, relay: string, expiry: nat): map<EventId, Row> {
    map e | e in rows :: if e in chosen then Leased(rows[e], relay, expiry) else rows[e]
  }

  function Published(row: Row, at: nat, receipt: nat): Row {
    row.(publishedAt := Some(at), publishedSeq := receipt, claimedBy := "", claimExpires := None)
  }

  function FailedRow(row: Row, notBefore: int): Row {
    row.(notBefore := notBefore, claimedBy := "", claimExpires := None)
  }

  function MarkPublished(db: Db, e: EventId, at: nat, receipt: nat): Db {
    if e in db.outbox then db.(outbox := db.outbox[e := Published(db.outbox[e], at, receipt)]) else db
  }

  function MarkFailed(db: Db, e: EventId, notBefore: int): Db {
    if e in db.outbox then db.(outbox := db.outbox[e := FailedRow(db.outbox[e], notBefore)]) else db
  }

  function RetireDispatch(db: Db, e: EventId, at: nat): Db {
    if e in db.outbox && db.outbox[e].retiredAt.None? then
      db.(outbox := db.outbox[e := Retired(db.outbox[e].(claimedBy := "", claimExpires := None), at)])
    else db
  }

  function ReleaseAbandoned(rows: map<EventId, Row>, now: nat): map<EventId, Row> {
    map e | e in rows ::
      if BelongsToRelay(rows[e]) && rows[e].claimedBy != "" && rows[e].claimExpires.Some? && rows[e].claimExpires.value <= now
      then rows[e].(claimedBy := "", claimExpires := None)
      else rows[e]
  }

  // ----- dead-letter records -----

  /** Moves the run of a dead dispatch to a terminal error: only a pending run, only of the
      expected version, only through the version guard. */
  function StrandRun(db: Db, uid: string, version: nat, entry: Option<Result>, at: nat): Db {
    if uid == "" || entry.None? || entry.value.status != Pending
       || (version != 0 && version != entry.value.version) then db
    else GuardedUpdate(db, FailRun(entry.value, at))
  }

  function NewFailure(name: string, report: Report): Failure {
    Failure(name, report, CREATED_VERSION, false, "")
  }

  predicate FailureGuard(db: Db, f: Failure) {
    f.name in db.failures && db.failures[f.name].rev == f.rev
  }

  /** The loaded failure as a retry leaves it: linked to its new run, and perhaps resolved. */
  function Linked(f: Failure, uid: string, resolve: bool): Failure {
    f.(retry := uid, resolved := f.resolved || resolve, rev := f.rev + 1)
  }

  predicate MayRetry(f: Failure, original: Result) {
    f.retry == "" && f.report.uid != "" && !original.snapshot.IsZero()
  }

  function ResolveFailure(db: Db, f: Failure): Db {
    if f.resolved || !FailureGuard(db, f) then db
    else db.(failures := db.failures[f.name := f.(resolved := true, rev := f.rev + 1)])
  }
}
