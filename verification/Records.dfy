/**
 What the promised changes of a stored value come to, field by field, independently of the code
 that makes them.
 */
module Records {
  import opened Domain
  import opened Options

  // ----- runs -----

  predicate SameRun(before: Result, after: Result) {
    && after.uid == before.uid && after.snapshot == before.snapshot
    && after.createdAt == before.createdAt && after.retryOf == before.retryOf
  }

  /** One version further, with this status, outcome and end, and held by whom it was. */
  predicate Finished(before: Result, after: Result, status: JobStatus, outcome: RunOutcome, at: nat) {
    && SameRun(before, after) && after.version == before.version + 1
    && after.runner == before.runner && after.worker == before.worker && after.dispatch == before.dispatch
    && after.deadline == before.deadline && after.started == before.started
    && after.status == status && after.outcome == outcome && after.ended == Some(at)
  }

  /** An abandoned run, or one whose message is gone. */
  predicate TimedOut(before: Result, after: Result, at: nat) {
    Finished(before, after, Expired, FinishedTimeout, at)
  }

  /** A run that can never be executed. */
  predicate Stranded(before: Result, after: Result, at: nat) {
    Finished(before, after, Errored, FinishedError, at)
  }

  /** The run may be held for as long as was asked, if anything was and the server allows it, and
      for as long as the server allows otherwise. */
  predicate HeldFor(deadline: Option<nat>, at: nat, timeout: int, maximum: int) {
    var limit := if maximum > 0 then maximum else 30 * MINUTE;
    && deadline.Some?
    && (0 < timeout <= limit ==> deadline.value == at + timeout)
    && (timeout <= 0 || limit < timeout ==> deadline.value == at + limit)
  }

  /** The dispatch named is asked for by a worker of the runner it was placed on, at its version. */
  predicate MayBeTaken(r: Result, who: Claimant, request: ClaimRequest) {
    && r.status == Pending && request.dispatch.Some? && (r.runner == "" || r.runner == who.runner)
    && (request.version == 0 || request.version == r.version)
  }

  predicate Taken(before: Result, after: Result, who: Claimant, request: ClaimRequest, at: nat, maximum: int) {
    && before.status == Pending && SameRun(before, after) && after.version == before.version + 1
    && after.status == Running && after.outcome == before.outcome && after.ended == before.ended
    && after.worker == who.worker && after.runner == who.runner && after.dispatch == request.dispatch
    && after.started == Some(at) && HeldFor(after.deadline, at, request.timeout, maximum)
  }

  /** The deprecated claim names no dispatch and sets no deadline. */
  predicate TakenByAuth(before: Result, after: Result, who: Claimant, at: nat) {
    && before.status == Pending && before.started.None? && SameRun(before, after) && after.version == before.version + 1
    && after.status == Running && after.outcome == before.outcome && after.ended == before.ended
    && after.worker == who.worker && after.runner == who.runner && after.started == Some(at)
    && after.dispatch == before.dispatch && after.deadline == before.deadline
  }

  /** Exactly what the scenario says now. */
  predicate Captures(s: Scenario, snapshot: Snapshot) {
    && snapshot.scenarioUid == s.uid && snapshot.scenarioName == s.name && snapshot.scenarioVersion == s.version
    && snapshot.requirements == s.requirements && snapshot.probKind == s.probKind && snapshot.probSpec == s.probSpec
  }

  /** A snapshot that names nothing to execute, as on records from before there were any. */
  predicate NothingToRun(snapshot: Snapshot) {
    snapshot.scenarioUid == "" && snapshot.probKind == "" && snapshot.probSpec.None?
  }

  /** A run is made of an active scenario that says what to execute. */
  predicate MayRun(s: Scenario) {
    s.active && s.uid != "" && s.probKind != "" && s.probSpec.Some?
  }

  predicate Unclaimed(r: Result) {
    r.worker == "" && r.dispatch.None? && r.deadline.None?
  }

  predicate Made(r: Result, uid: string, s: Scenario, runner: string, stamped: bool, now: nat) {
    && r.uid == uid && r.version == 1 && r.createdAt == now && r.retryOf.None? && Captures(s, r.snapshot)
    && r.runner == runner && Unclaimed(r) && r.started == (if stamped then Some(now) else None)
    && (runner != "" ==> r.status == Pending && r.outcome == NotFinished && r.ended.None?)
    && (runner == "" ==> r.status == Errored && r.outcome == FinishedError && r.ended == Some(now))
  }

  /** A new attempt at what was executed before, where it was placed before. */
  predicate RetryOf(r: Result, uid: string, original: Result, failure: string, now: nat) {
    && r.uid == uid && r.version == 1 && r.createdAt == now && r.retryOf == Some(failure)
    && r.snapshot == original.snapshot && r.runner == original.runner && Unclaimed(r)
    && r.status == Pending && r.outcome == NotFinished && r.started.None? && r.ended.None?
  }

  // ----- capabilities -----

  /** The capability is for this record and the worker holding it, until the run's deadline and the
      grace for reporting, cut to whole seconds. */
  predicate Authorises(c: Capability, r: Result) {
    && c.uid == r.uid && c.version == r.version && c.worker == r.worker && c.dispatch == r.dispatch
    && c.deadline == r.deadline && c.probe == r.snapshot
    && (r.deadline.Some? ==> c.expiry % SECOND == 0 && c.expiry <= r.deadline.value + 5 * MINUTE < c.expiry + SECOND)
  }

  /** Without a deadline, it is good for the time asked. */
  predicate AuthorisesFor(c: Capability, r: Result, at: nat, timeout: int) {
    && c.uid == r.uid && c.version == r.version && c.worker == r.worker && c.dispatch.None? && c.deadline.None?
    && c.probe == r.snapshot && c.expiry % SECOND == 0 && c.expiry <= at + timeout < c.expiry + SECOND
  }

  // ----- outbox rows -----

  predicate SameDispatch(before: Row, after: Row) {
    after.event == before.event && after.uid == before.uid && after.version == before.version && after.runner == before.runner
  }

  predicate SamePublication(before: Row, after: Row) {
    after.publishedAt == before.publishedAt && after.publishedSeq == before.publishedSeq
  }

  predicate SameLease(before: Row, after: Row) {
    after.claimedBy == before.claimedBy && after.claimExpires == before.claimExpires
  }

  predicate NotLeased(row: Row) {
    row.claimedBy == "" && row.claimExpires.None?
  }

  /** The run's own dispatch, due at once. */
  predicate FreshRow(row: Row, r: Result, now: nat) {
    && row.event == EventId(r.uid, r.version) && row.uid == r.uid && row.version == r.version && row.runner == r.runner
    && row.publishedAt.None? && row.retiredAt.None? && row.notBefore == now && row.attempts == 0 && NotLeased(row)
  }

  predicate RowLeased(before: Row, after: Row, relay: string, until: nat) {
    && SameDispatch(before, after) && SamePublication(before, after) && after.retiredAt == before.retiredAt
    && after.notBefore == before.notBefore && after.attempts == before.attempts + 1
    && after.claimedBy == relay && after.claimExpires == Some(until)
  }

  predicate RowPublished(before: Row, after: Row, at: nat, sequence: nat) {
    && SameDispatch(before, after) && after.publishedAt == Some(at) && after.publishedSeq == sequence
    && after.retiredAt == before.retiredAt && after.notBefore == before.notBefore && after.attempts == before.attempts
    && NotLeased(after)
  }

  predicate RowHeldBack(before: Row, after: Row, notBefore: int) {
    && SameDispatch(before, after) && SamePublication(before, after) && after.retiredAt == before.retiredAt
    && after.notBefore == notBefore && after.attempts == before.attempts && NotLeased(after)
  }

  predicate RowReleased(before: Row, after: Row) {
    && SameDispatch(before, after) && SamePublication(before, after) && after.retiredAt == before.retiredAt
    && after.notBefore == before.notBefore && after.attempts == before.attempts && NotLeased(after)
  }

  /** By the sweep: whatever lease there was goes with it. */
  predicate RowRetired(before: Row, after: Row, at: nat) {
    && SameDispatch(before, after) && SamePublication(before, after) && after.retiredAt == Some(at)
    && after.notBefore == before.notBefore && after.attempts == before.attempts && NotLeased(after)
  }

  /** With its run's expiry: the lease stays. */
  predicate RowExpired(before: Row, after: Row, at: nat) {
    && SameDispatch(before, after) && SamePublication(before, after) && after.retiredAt == Some(at)
    && after.notBefore == before.notBefore && after.attempts == before.attempts && SameLease(before, after)
  }

  /** Still to be published. */
  predicate Outstanding(row: Row) {
    row.publishedAt.None? && row.retiredAt.None?
  }

  /** A relay's query finds the row: still to be published, not held back, in nobody's lease. */
  predicate MayBeLeased(row: Row, now: nat) {
    Outstanding(row) && row.notBefore <= now && (row.claimExpires.None? || row.claimExpires.value <= now)
  }

  // ----- dead-letter records -----

  predicate NewRecord(f: Failure, name: string, report: Report) {
    f.name == name && f.report == report && f.rev == 1 && !f.resolved && f.retry == ""
  }

  predicate LinkedTo(before: Failure, after: Failure, uid: string, resolve: bool) {
    && after.name == before.name && after.report == before.report && after.rev == before.rev + 1
    && after.retry == uid && after.resolved == (before.resolved || resolve)
  }

  predicate Resolved(before: Failure, after: Failure) {
    && after.name == before.name && after.report == before.report && after.rev == before.rev + 1
    && after.retry == before.retry && after.resolved
  }
}
