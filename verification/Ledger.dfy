/**
 The authoritative state and every step that writes it. Besides the tables the state carries
 the history the safety statements speak about: every run and failure version ever committed
 (a load may be answered from any of them, however late the write that follows), every
 capability handed out, every row a reconciler scan has read, the failures filed about a run
 that existed then, the runner of every dispatch ever written, and the dispatches whose row an
 administrator has removed.
 */
module Ledger {
  import opened Domain
  import opened Options
  import opened Tables
  import Labels

  /** A pending run a reconciler scan loaded, with the outbox row it then found for it. */
  datatype Candidate = Candidate(run: Result, dispatch: Option<Row>, at: nat)

  datatype State = State(
    clock: nat,
    cfg: Config,
    db: Db,
    scenarios: map<string, Scenario>,
    stored: set<Result>,
    filed: set<Failure>,
    used: set<string>,
    origin: map<string, Snapshot>,
    issued: set<Capability>,
    scanned: set<Candidate>,
    known: set<string>,
    routed: map<EventId, string>,
    purged: set<EventId>)

  datatype Step =
    | EditScenario(name: string, scenario: Scenario)
    | DropScenario(name: string)
    | Create(uid: string, name: string, runner: string, stamped: bool)
    | Claim(uid: string, who: Claimant, request: ClaimRequest, entry: Option<Result>, at: nat)
    | LegacyAuth(who: Claimant, run: Result, at: nat, timeout: int)
    | UpdateStatus(token: Capability, version: nat, run: Result, at: nat, outcome: RunOutcome)
    | Delete(uid: string)
    | ExpireRunning(run: Result, at: nat)
    | ScanPending(run: Result, at: nat)
    | ExpirePending(candidate: Candidate)
    | Reenqueue(candidate: Candidate)
    | RemoveRow(event: EventId)
    | FileFailure(name: string, report: Report, entry: Option<Result>, at: nat)
    | StrandUnplaced(event: EventId, entry: Option<Result>, at: nat)
    | Retry(failure: Failure, original: Result, uid: string, resolve: bool)
    | Resolve(failure: Failure)

  ghost predicate Init(l: State) {
    && l.db == Db(map[], map[], map[], map[])
    && l.stored == {} && l.filed == {} && l.used == {} && l.issued == {} && l.scanned == {} && l.known == {}
    && l.origin == map[] && l.routed == map[] && l.purged == {}
    && forall n :: n in l.scenarios ==> l.scenarios[n].name == n != ""
  }

  /** A load that may have happened at any time up to now. A run once deleted stays deleted. */
  ghost predicate Loaded(l: State, uid: string, entry: Option<Result>) {
    match entry
    case None => uid !in l.db.results
    case Some(r) => r in l.stored && r.uid == uid
  }

  /** What the API answers a claim with. */
  datatype Answer = Granted(cap: Capability) | Denied(disposition: Disposition)

  function ClaimAnswer(l: State, who: Claimant, request: ClaimRequest, entry: Option<Result>, at: nat): Answer {
    match Adjudicate(entry, who, request, at, l.cfg.maxRunDuration)
    case Refuse(d) => Denied(d)
    case Unschedulable => Denied(Obsolete)
    case Reissue => Granted(AuthorizeRun(entry.value, who, request.dispatch, entry.value.deadline))
    case Take(next) =>
      if Guard(l.db, next) then Granted(AuthorizeRun(Bumped(next), who, request.dispatch, next.deadline))
      else Denied(Obsolete)
  }

  ghost predicate Enabled(l: State, step: Step) {
    match step
    case EditScenario(name, s) => s.name == name && name != ""
    case DropScenario(name) => true
    case Create(uid, name, runner, stamped) =>
      && uid !in l.used && uid != ""
      && name in l.scenarios && CreationAllowed(l.scenarios[name])
    case Claim(uid, who, request, entry, at) => Loaded(l, uid, entry) && at <= l.clock
    case LegacyAuth(who, entry, at, timeout) => entry in l.stored && LegacyMayTake(entry) && at <= l.clock
    case UpdateStatus(token, version, entry, at, outcome) =>
      && token in l.issued && entry in l.stored && at <= l.clock
      && entry.version == version && entry.uid == token.uid && at < token.expiry
      // The clock is read after the load, so no stamp on the loaded record is later.
      && (entry.ended.Some? ==> entry.ended.value <= at)
    case Delete(uid) => uid in l.db.results
    case ExpireRunning(entry, at) =>
      entry in l.stored && at <= l.clock && LeaseElapsed(entry, l.cfg.leaseGrace, at)
    case ScanPending(entry, at) =>
      entry in l.stored && at <= l.clock && StalePending(entry, l.cfg.PendingTimeout(), at)
    case ExpirePending(c) =>
      c in l.scanned && c.dispatch.Some? && !BelongsToRelay(c.dispatch.value)
    case Reenqueue(c) => c in l.scanned && c.dispatch.None?
    case RemoveRow(event) => event in l.db.outbox
    case FileFailure(name, report, entry, at) =>
      && report.event != "" && name == Labels.RecordName(report.event, report.reason)
      && Loaded(l, report.uid, entry) && at <= l.clock
    case StrandUnplaced(event, entry, at) =>
      && event in l.db.outbox && l.db.outbox[event].runner == ""
      && Loaded(l, event.uid, entry) && at <= l.clock
    case Retry(f, original, uid, resolve) =>
      && f in l.filed && original in l.stored && original.uid == f.report.uid
      && uid !in l.used && uid != ""
    case Resolve(f) => f in l.filed
  }

  // ----- effects -----

  /** A guarded write of a run, with its history. */
  function Write(l: State, next: Result): State {
    if Guard(l.db, next) then
      l.(db := GuardedUpdate(l.db, next), stored := l.stored + {Bumped(next)})
    else l
  }

  function Issue(l: State, cap: Capability): State {
    l.(issued := l.issued + {cap})
  }

  function Insert(l: State, r: Result, dispatched: bool, snapshot: Snapshot): State {
    l.(db := CreateWithDispatch(l.db, r, dispatched, l.clock),
       stored := l.stored + {r}, used := l.used + {r.uid}, origin := l.origin[r.uid := snapshot],
       routed := if dispatched then l.routed[DispatchEvent(r.uid, r.version) := r.runner] else l.routed)
  }

  function ExpireStep(l: State, r: Result, at: nat): State {
    if r.status.IsTerminal() || !Guard(l.db, r) then l
    else l.(db := ExpireRun(l.db, r, at), stored := l.stored + {Bumped(ExpireResult(r, at))})
  }

  /** The write made by a claim: the taken run, or the retirement of one that cannot be run. */
  function ClaimWrite(l: State, verdict: Verdict, entry: Option<Result>, at: nat): State {
    match verdict
    case Take(next) => Write(l, next)
    case Unschedulable =>
      if entry.Some? && entry.value.status == Pending then Write(l, FailRun(entry.value, at)) else l
    case _ => l
  }

  function ClaimStep(l: State, who: Claimant, request: ClaimRequest, entry: Option<Result>, at: nat): State {
    var l1 := ClaimWrite(l, Adjudicate(entry, who, request, at, l.cfg.maxRunDuration), entry, at);
    match ClaimAnswer(l, who, request, entry, at)
    case Granted(cap) => Issue(l1, cap)
    case Denied(_) => l1
  }

  function LegacyStep(l: State, who: Claimant, entry: Result, at: nat, timeout: int): State {
    var next := LegacyTake(entry, who, at);
    if Guard(l.db, next) then Issue(Write(l, next), LegacyCapability(Bumped(next), who, at, timeout)) else l
  }

  function StrandStep(l: State, uid: string, version: nat, entry: Option<Result>, at: nat): State {
    if uid == "" || entry.None? || entry.value.status != Pending
       || (version != 0 && version != entry.value.version) then l
    else Write(l, FailRun(entry.value, at))
  }

  /** A new record, remembering in the history whether the run it names existed by then. */
  function WithRecord(l: State, f: Failure): State {
    l.(db := l.db.(failures := l.db.failures[f.name := f]), filed := l.filed + {f},
       known := if f.report.uid in l.used then l.known + {f.name} else l.known)
  }

  function FileStep(l: State, name: string, report: Report, entry: Option<Result>, at: nat): State {
    if name in l.db.failures then l
    else StrandStep(WithRecord(l, NewFailure(name, report)), report.uid, report.version, entry, at)
  }

  function RetryStep(l: State, f: Failure, original: Result, uid: string, resolve: bool): State {
    if !MayRetry(f, original) || !FailureGuard(l.db, f) then l
    else
      var l1 := Insert(l, RetryRun(uid, original, f, l.clock), true,
                       if original.uid in l.origin then l.origin[original.uid] else original.snapshot);
      l1.(db := l1.db.(failures := l1.db.failures[f.name := Linked(f, uid, resolve)]),
          filed := l1.filed + {Linked(f, uid, resolve)})
  }

  function ResolveStep(l: State, f: Failure): State {
    if f.resolved || !FailureGuard(l.db, f) then l
    else l.(db := ResolveFailure(l.db, f), filed := l.filed + {f.(resolved := true, rev := f.rev + 1)})
  }

  function CreateStep(l: State, uid: string, s: Scenario, runner: string, stamped: bool): State {
    var r := NewRun(uid, s, runner, stamped, l.clock);
    Insert(l, r, ShouldDispatch(r, s), NewExecutionSnapshot(s))
  }

  /** The row lookup of a scan, keyed on the loaded run's UID and version. */
  function DispatchOf(db: Db, r: Result): Option<Row> {
    var e := DispatchEvent(r.uid, r.version);
    if e in db.outbox then Some(db.outbox[e]) else None
  }

  function Apply(l: State, step: Step): State {
    match step
    case EditScenario(name, s) => l.(scenarios := l.scenarios[name := s])
    case DropScenario(name) => l.(scenarios := l.scenarios - {name})
    case Create(uid, name, runner, stamped) =>
      if name in l.scenarios then CreateStep(l, uid, l.scenarios[name], runner, stamped) else l
    case Claim(uid, who, request, entry, at) => ClaimStep(l, who, request, entry, at)
    case LegacyAuth(who, entry, at, timeout) => LegacyStep(l, who, entry, at, timeout)
    case UpdateStatus(token, version, entry, at, outcome) => Write(l, CompleteRun(entry, outcome, at))
    case Delete(uid) => l.(db := DeleteRun(l.db, uid))
    case ExpireRunning(entry, at) => ExpireStep(l, entry, at)
    case ScanPending(entry, at) => l.(scanned := l.scanned + {Candidate(entry, DispatchOf(l.db, entry), at)})
    case ExpirePending(c) => ExpireStep(l, c.run, c.at)
    case Reenqueue(c) => l.(db := EnqueueDispatch(l.db, c.run, l.clock))
    case RemoveRow(event) => l.(db := l.db.(outbox := l.db.outbox - {event}), purged := l.purged + {event})
    case FileFailure(name, report, entry, at) => FileStep(l, name, report, entry, at)
    case StrandUnplaced(event, entry, at) => StrandStep(l, event.uid, event.version, entry, at)
    case Retry(f, original, uid, resolve) => RetryStep(l, f, original, uid, resolve)
    case Resolve(f) => ResolveStep(l, f)
  }
}
