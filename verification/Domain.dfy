/**
 The values the control plane stores and the pure decisions it takes about them:
 runs (`Result`), outbox rows, dead-letter records, run capabilities, and the claim
 adjudication. Times and durations are ticks of one clock (nanoseconds).
 */
module Domain {
  import opened Options

  const SECOND: nat := 1_000_000_000
  const MINUTE: nat := 60 * SECOND

  /** How long past its deadline a run capability keeps working. */
  const ARTIFACT_UPLOAD_GRACE: nat := 5 * MINUTE

  const DEFAULT_MAX_RUN_DURATION: nat := 30 * MINUTE

  /** The version the store gives a record when it is created. */
  const CREATED_VERSION: nat := 1

  datatype JobStatus = Pending | Running | Expired | Completed | Errored {
    predicate IsTerminal() {
      Completed? || Errored? || Expired?
    }
  }

  datatype RunOutcome = NotFinished | FinishedTimeout | FinishedError | Reported(text: string)

  datatype Scenario = Scenario(
    uid: string, name: string, version: nat, active: bool,
    requirements: string, probKind: string, probSpec: Option<string>)

  /** The immutable execution input of one run. */
  datatype Snapshot = Snapshot(
    scenarioUid: string, scenarioName: string, scenarioVersion: nat,
    requirements: string, probKind: string, probSpec: Option<string>)
  {
    predicate IsZero() {
      scenarioUid == "" && probKind == "" && probSpec.None?
    }

    predicate IsExecutable() {
      scenarioUid != "" && probKind != "" && probSpec.Some?
    }
  }

  function NewExecutionSnapshot(s: Scenario): Snapshot {
    Snapshot(s.uid, s.name, s.version, s.requirements, s.probKind, s.probSpec)
  }

  /** The identity of one dispatch: a run at one version. `Labels` proves that the string the
      program derives from it determines it. */
  datatype EventId = EventId(uid: string, version: nat)

  datatype Reason =
    | MalformedEnvelope
    | MisroutedDispatch
    | PolicyRefused
    | MaxDeliveryExhausted
    | UndeliverableDispatch

  /** A failure of one of the program's own dispatches. */
  datatype FailureKey = FailureKey(event: EventId, reason: Reason)

  /** What a dead-letter report says. Only the reason and a non-empty event are checked: the run
      and version it names, if any, need have nothing to do with the event. */
  datatype Report = Report(event: string, reason: Reason, uid: string, version: nat)

  /** One execution attempt. `runner` is "" while nothing could take it, `worker` is "" until a
      claim, `deadline` is absent for a run taken through the deprecated Auth call. */
  datatype Result = Result(
    uid: string, version: nat, status: JobStatus, outcome: RunOutcome,
    runner: string, worker: string, dispatch: Option<EventId>, deadline: Option<nat>,
    snapshot: Snapshot, createdAt: nat, started: Option<nat>, ended: Option<nat>,
    retryOf: Option<string>)

  datatype Row = Row(
    event: EventId, uid: string, version: nat, runner: string,
    publishedAt: Option<nat>, publishedSeq: nat, retiredAt: Option<nat>,
    notBefore: int, attempts: nat, claimedBy: string, claimExpires: Option<nat>)

  /** A dead-letter record, under the name its event and reason give it. `rev` is the record's
      own version; `retry` is the UID of the run created for it, or "". */
  datatype Failure = Failure(name: string, report: Report, rev: nat, resolved: bool, retry: string)

  /** What a claim hands out: the authority to execute and report one run. */
  datatype Capability = Capability(
    uid: string, version: nat, worker: string, dispatch: Option<EventId>,
    deadline: Option<nat>, expiry: int, probe: Snapshot)

  datatype Config = Config(maxRunDuration: int, leaseGrace: nat, maxJobAge: nat, pendingGrace: nat)
  {
    function PendingTimeout(): nat {
      maxJobAge + pendingGrace
    }
  }

  function DispatchEvent(uid: string, version: nat): EventId {
    EventId(uid, version)
  }

  function NewDispatchOutboxEntry(r: Result, now: nat): Row {
    Row(DispatchEvent(r.uid, r.version), r.uid, r.version, r.runner, None, 0, None, now, 0, "", None)
  }

  // ----- creation -----

  /** The run `Create` builds from the scenario as it stands, placed on `runner` ("" when
      placement found nothing, in which case the run is born terminal). */
  function NewRun(uid: string, s: Scenario, runner: string, stamped: bool, now: nat): Result {
    var r := Result(uid, CREATED_VERSION, Pending, NotFinished, runner, "", None, None,
                    NewExecutionSnapshot(s), now, if stamped then Some(now) else None, None, None);
    if runner != "" then r else FailRun(r, now)
  }

  predicate CreationAllowed(s: Scenario) {
    s.active && NewExecutionSnapshot(s).IsExecutable()
  }

  predicate ShouldDispatch(r: Result, s: Scenario) {
    r.status == Pending && s.name != "" && s.active
  }

  /** The run `retryDispatchFailure` creates: same input and placement, a new attempt. */
  function RetryRun(uid: string, original: Result, failure: Failure, now: nat): Result {
    Result(uid, CREATED_VERSION, Pending, NotFinished, original.runner, "", None, None,
           original.snapshot, now, None, None, Some(failure.name))
  }

  // ----- transitions of a loaded run, before the guarded write -----

  function FailRun(r: Result, at: nat): Result {
    r.(status := Errored, outcome := FinishedError, ended := Some(at))
  }

  function ExpireResult(r: Result, at: nat): Result {
    r.(status := Expired, outcome := FinishedTimeout, ended := Some(at))
  }

  function CompleteRun(r: Result, outcome: RunOutcome, at: nat): Result {
    r.(status := Completed, outcome := outcome, ended := Some(at))
  }

  // ----- claims -----

  datatype Claimant = Claimant(worker: string, runner: string)

  datatype ClaimRequest = ClaimRequest(dispatch: Option<EventId>, version: nat, timeout: int)

  datatype Disposition = Unavailable | Obsolete | Forbidden

  /** What ClaimRun concludes from the run it loaded, before any write. */
  datatype Verdict =
    | Refuse(disposition: Disposition)
    | Unschedulable
    | Reissue
    | Take(next: Result)

  predicate IsReclaim(r: Result, worker: string, dispatch: Option<EventId>) {
    r.status == Running && r.worker == worker && r.dispatch == dispatch
  }

  /** How long a worker may hold a run: its request when it is below the server's limit,
      otherwise the limit. */
  function ClampRunDuration(requested: int, maximum: int): (granted: nat)
    ensures 0 < granted
    ensures 0 < maximum ==> granted <= maximum
    ensures maximum <= 0 ==> granted <= DEFAULT_MAX_RUN_DURATION
    ensures 0 < requested <= maximum ==> granted == requested
  {
    var limit := if maximum <= 0 then DEFAULT_MAX_RUN_DURATION else maximum;
    if 0 < requested < limit then requested else limit
  }

  function Adjudicate(entry: Option<Result>, who: Claimant, request: ClaimRequest, now: nat, maximum: int): (v: Verdict)
    ensures !v.Refuse? ==> entry.Some?
  {
    if request.dispatch.None? then Refuse(Forbidden)
    else if entry.None? then Refuse(Obsolete)
    else
      var r := entry.value;
      if request.version != 0 && request.version != r.version && !IsReclaim(r, who.worker, request.dispatch) then
        Refuse(Obsolete)
      else if r.runner != "" && r.runner != who.runner then Refuse(Obsolete)
      else if r.snapshot.IsZero() then Unschedulable
      else if r.status == Running then
        if IsReclaim(r, who.worker, request.dispatch) then Reissue else Refuse(Obsolete)
      else if r.status != Pending then Refuse(Obsolete)
      else
        Take(r.(started := Some(now), status := Running, worker := who.worker, runner := who.runner,
                dispatch := request.dispatch,
                deadline := Some(now + ClampRunDuration(request.timeout, maximum))))
  }

  /** Who may have a run: the claim names a dispatch, the run has something to execute and was
      placed on this claimant's runner or nowhere, and it is either unclaimed and asked for at its
      current version or already held through this very claim. */
  predicate Entitled(r: Result, who: Claimant, request: ClaimRequest) {
    && request.dispatch.Some? && !r.snapshot.IsZero() && (r.runner == "" || r.runner == who.runner)
    && ((r.status == Pending && (request.version == 0 || request.version == r.version))
        || IsReclaim(r, who.worker, request.dispatch))
  }

  /** The order of the refusals does not matter to who is granted: a claim succeeds if and only if
      the claimant is entitled, and a held run is handed out again unchanged. A run is held for as
      long as was asked, up to the server's limit, and for that limit when nothing was asked. */
  lemma ClaimDecides(entry: Option<Result>, who: Claimant, request: ClaimRequest, now: nat, maximum: int)
    ensures var v := Adjudicate(entry, who, request, now, maximum);
      && ((v.Take? || v.Reissue?) <==> entry.Some? && Entitled(entry.value, who, request))
      && (v.Take? ==> entry.value.status == Pending && IsReclaim(v.next, who.worker, request.dispatch)
                      && v.next.runner == who.runner && v.next.uid == entry.value.uid && v.next.version == entry.value.version
                      && v.next.snapshot == entry.value.snapshot && v.next.started == Some(now)
                      && v.next.createdAt == entry.value.createdAt && v.next.retryOf == entry.value.retryOf
                      && v.next.outcome == entry.value.outcome && v.next.ended == entry.value.ended)
      && (v.Take? ==>
            var limit := if maximum > 0 then maximum else 30 * MINUTE;
            && v.next.deadline.Some?
            && (0 < request.timeout <= limit ==> v.next.deadline.value == now + request.timeout)
            && (request.timeout <= 0 || limit < request.timeout ==> v.next.deadline.value == now + limit))
      && (v.Unschedulable? ==> entry.value.snapshot.IsZero())
      && (v == Refuse(Forbidden) <==> request.dispatch.None?)
  {
  }

  /** A JWT NumericDate keeps whole seconds. */
  function NumericDate(t: int): (d: int)
    ensures d <= t < d + SECOND
  {
    t / SECOND * SECOND
  }

  /** The capability minted for a claimant over a run as it now stands. */
  function AuthorizeRun(r: Result, who: Claimant, dispatch: Option<EventId>, deadline: Option<nat>): Capability {
    Capability(r.uid, r.version, who.worker, dispatch, deadline,
               NumericDate((if deadline.Some? then deadline.value else 0) + ARTIFACT_UPLOAD_GRACE), r.snapshot)
  }

  /** The deprecated Auth call takes a pending, unstarted run and records no deadline. */
  predicate LegacyMayTake(r: Result) {
    r.status == Pending && r.started.None?
  }

  function LegacyTake(r: Result, who: Claimant, now: nat): Result {
    r.(started := Some(now), status := Running, worker := who.worker, runner := who.runner)
  }

  function LegacyCapability(r: Result, who: Claimant, now: nat, timeout: int): Capability {
    Capability(r.uid, r.version, who.worker, None, None, NumericDate(now + timeout), r.snapshot)
  }

  // ----- the worker's reading of the API's answer -----

  const STATUS_BAD_REQUEST := 400
  const STATUS_UNAUTHORIZED := 401
  const STATUS_FORBIDDEN := 403
  const STATUS_NOT_FOUND := 404
  const STATUS_CONFLICT := 409
  const STATUS_UNAVAILABLE := 503

  function ClaimHttpStatus(d: Disposition): int {
    match d
    case Obsolete => STATUS_CONFLICT
    case Forbidden => STATUS_FORBIDDEN
    case Unavailable => STATUS_UNAVAILABLE
  }

  datatype ClaimOutcome = ClaimAccepted | ClaimRetry | ClaimStale | ClaimTerminal | ClaimAbandon

  /** Absent status: an error the API did not choose. */
  function ClassifyClaimFailure(status: Option<int>): ClaimOutcome {
    match status
    case None => ClaimRetry
    case Some(code) =>
      if code == STATUS_CONFLICT then ClaimStale
      else if code == STATUS_FORBIDDEN || code == STATUS_UNAUTHORIZED
           || code == STATUS_BAD_REQUEST || code == STATUS_NOT_FOUND then ClaimTerminal
      else ClaimRetry
  }

  predicate PermanentReportRefusal(status: Option<int>) {
    status.Some? && 400 <= status.value < 500
  }

  // ----- the reconciler's predicates -----

  predicate LeaseElapsed(r: Result, grace: nat, now: nat) {
    r.status == Running && r.deadline.Some? && 0 < r.deadline.value && r.deadline.value < now - grace
  }

  predicate StalePending(r: Result, timeout: nat, now: nat) {
    r.status == Pending && r.createdAt < now - timeout
  }

  /** An entry the relay still owns: written, not published, not retired. */
  predicate BelongsToRelay(row: Row) {
    row.publishedAt.None? && row.retiredAt.None?
  }
}
