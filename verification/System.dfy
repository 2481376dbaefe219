/**
 The whole dispatch system: the ledger, the relays and the broker between it and the workers,
 the reconciler's sweep, and the message handlers of every worker process. Any step of any
 party may come next, messages may be redelivered at any time to anyone, every answer may be
 lost, and the broker's stream may be recreated, which starts its numbering again.
 */
module System {
  import opened Domain
  import opened Options
  import opened Tables
  import opened Ledger
  import Labels

  datatype Msg = Msg(event: EventId, uid: string, version: nat, runner: string, at: nat)

  /** Where a message was stored: a sequence, in one incarnation of the stream. The program sees
      the sequence only. */
  datatype Position = Position(era: nat, sequence: nat)

  /** A row the stale-dispatch query returned, and whether its run was claimed through it; `era`
      is the incarnation of the stream its stored sequence belongs to. */
  datatype Stale = Stale(row: Row, delivered: bool, era: nat)

  /** `queue` is what the present stream can still deliver, by sequence, and `log` everything ever
      accepted; `held` counts the leases a relay took and has not yet acted on, `begun` the
      publications started, those the broker never answered included; `marks` is the incarnation
      of the sequence each row was last marked with. */
  datatype Net = Net(
    era: nat,
    queue: map<nat, Msg>,
    log: map<Position, Msg>,
    next: nat,
    held: multiset<EventId>,
    begun: map<EventId, nat>,
    receipts: set<(EventId, Position)>,
    marks: map<EventId, nat>,
    swept: set<Stale>)

  datatype Phase =
    | Fresh
    | Claiming
    | Answered(outcome: ClaimOutcome)
    | Executing
    | Reporting(reason: Reason)
    | Filed(reason: Reason)
    | Unfiled(status: Option<int>)

  /** One `handle` call of a worker process, which registered as `who`. `holding` is its entry in
      the in-flight set of that process; other processes may have registered under the same name. */
  datatype Handler = Handler(process: nat, who: Claimant, position: Position, msg: Msg, holding: bool, phase: Phase)

  datatype State = State(l: Ledger.State, net: Net, floor: map<nat, Handler>)

  datatype Step =
    | Control(step: Ledger.Step)
    | Tick(now: nat)
    | RelayClaim(chosen: set<EventId>, relay: string, lease: nat)
    | RelayPublish(event: EventId, duplicateOf: Option<nat>)
    | RelayPublishFailed(event: EventId)
    | RelayMarkPublished(event: EventId, receipt: Position)
    | RelayMarkFailed(event: EventId, notBefore: int)
    | RelayCrash(event: EventId)
    | ReleaseLeases
    | SweepScan(event: EventId)
    | SweepDrop(stale: Stale)
    | SweepRetire(stale: Stale)
    | RecreateStream
    | Deliver(id: nat, process: nat, who: Claimant, sequence: nat)
    | CheckRoute(id: nat)
    | Acquire(id: nat)
    | DropDuplicate(id: nat, acked: bool)
    | AskClaim(id: nat, entry: Option<Result>, at: nat, timeout: int, heard: bool)
    | ClaimFailed(id: nat, status: Option<int>)
    | ClaimInterrupted(id: nat)
    | Dispose(id: nat, acked: bool)
    | FileReport(id: nat, entry: Option<Result>, at: nat)
    | ReportFailed(id: nat, status: Option<int>)
    | Terminate(id: nat, done: bool)
    | Finish(id: nat)
    | CrashProcess(process: nat)

  ghost predicate Init(s: State) {
    && Ledger.Init(s.l)
    && s.net == Net(0, map[], map[], 1, multiset{}, map[], {}, map[], {})
    && s.floor == map[]
  }

  // ----- broker -----

  predicate Aged(m: Msg, now: nat, maxAge: nat) {
    m.at + maxAge < now
  }

  function DropAged(queue: map<nat, Msg>, now: nat, maxAge: nat): map<nat, Msg> {
    map p | p in queue && !Aged(queue[p], now, maxAge) :: queue[p]
  }

  /** The envelope of a leased row, which names the row's run, version and runner. */
  function MessageOf(e: EventId, runner: string, now: nat): Msg {
    Msg(e, e.uid, e.version, runner, now)
  }

  function Begun(net: Net, e: EventId): nat {
    if e in net.begun then net.begun[e] else 0
  }

  /** A publication uses up the lease it was made under. */
  function BeginPublication(net: Net, e: EventId): Net {
    net.(held := net.held - multiset{e}, begun := net.begun[e := Begun(net, e) + 1])
  }

  /** The broker either stores a new message or, recognising the message ID, answers with the
      position of one it already stored. */
  function Publish(net: Net, e: EventId, runner: string, now: nat, duplicateOf: Option<nat>): Net {
    var net1 := BeginPublication(net, e);
    match duplicateOf
    case Some(p) => net1.(receipts := net1.receipts + {(e, Position(net1.era, p))})
    case None =>
      net1.(queue := net1.queue[net1.next := MessageOf(e, runner, now)],
            log := net1.log[Position(net1.era, net1.next) := MessageOf(e, runner, now)],
            next := net1.next + 1,
            receipts := net1.receipts + {(e, Position(net1.era, net1.next))})
  }

  /** The stream is lost and made again, empty and counting from one. */
  function Recreated(net: Net): Net {
    net.(era := net.era + 1, queue := map[], next := 1)
  }

  function EraOf(net: Net, e: EventId): nat {
    if e in net.marks then net.marks[e] else 0
  }

  // ----- the stale-dispatch sweep -----

  ghost predicate RunIsOver(db: Db, uid: string) {
    uid in db.results ==> db.results[uid].status.IsTerminal()
  }

  /** The run was claimed through this very dispatch. The query still sees a deleted run's record. */
  predicate Delivered(db: Db, row: Row) {
    if row.uid in db.results then db.results[row.uid].dispatch == Some(row.event)
    else row.uid in db.deleted && db.deleted[row.uid].dispatch == Some(row.event)
  }

  predicate ShouldDrop(d: Stale) {
    !d.delivered && d.row.publishedAt.Some? && d.row.publishedSeq != 0
  }

  // ----- worker -----

  ghost predicate Holds(s: State, process: nat, uid: string) {
    exists i :: i in s.floor && s.floor[i].holding && s.floor[i].process == process && s.floor[i].msg.uid == uid
  }

  function RequestOf(m: Msg, timeout: int): ClaimRequest {
    ClaimRequest(Some(m.event), m.version, timeout)
  }

  /** What a worker's report says about the dispatch it holds, and the record it is filed under. */
  function ReportOf(m: Msg, reason: Reason): Report {
    Report(Labels.EventName(m.event), reason, m.uid, m.version)
  }

  function ReportName(m: Msg, reason: Reason): string {
    Labels.FailureName(FailureKey(m.event, reason))
  }

  /** The outcome the worker derives from the API's answer, through its HTTP status. */
  function OutcomeOf(answer: Answer): ClaimOutcome {
    match answer
    case Granted(_) => ClaimAccepted
    case Denied(d) => ClassifyClaimFailure(Some(ClaimHttpStatus(d)))
  }

  /** An acknowledgement names a sequence, and takes what the stream now has there. */
  function Leave(queue: map<nat, Msg>, position: Position, taken: bool): map<nat, Msg> {
    if taken then queue - {position.sequence} else queue
  }

  /** Whether a reported message may be removed: its failure is on record, or its report will be
      refused for ever. */
  predicate MayTerminate(phase: Phase) {
    phase.Filed? || (phase.Unfiled? && PermanentReportRefusal(phase.status))
  }

  function SetPhase(s: State, id: nat, phase: Phase): State
    requires id in s.floor
  {
    s.(floor := s.floor[id := s.floor[id].(phase := phase)])
  }

  /** `applyDisposition`: the broker action a claim outcome becomes. */
  function DisposeOf(s: State, id: nat, outcome: ClaimOutcome, acked: bool): State
    requires id in s.floor
  {
    var position := s.floor[id].position;
    match outcome
    case ClaimAccepted => SetPhase(s, id, Executing).(net := s.net.(queue := Leave(s.net.queue, position, acked)))
    case ClaimStale => s.(net := s.net.(queue := Leave(s.net.queue, position, acked)), floor := s.floor - {id})
    case ClaimTerminal => SetPhase(s, id, Reporting(PolicyRefused))
    case ClaimRetry => s.(floor := s.floor - {id})
    case ClaimAbandon => s.(floor := s.floor - {id})
  }

  ghost predicate Enabled(s: State, step: Step) {
    match step
    case Control(step) => Ledger.Enabled(s.l, step)
    case Tick(now) => s.l.clock < now
    case RelayClaim(chosen, relay, lease) =>
      forall e :: e in chosen ==> e in s.l.db.outbox && Due(s.l.db.outbox[e], s.l.clock)
    case RelayPublish(e, duplicateOf) =>
      // The relay publishes from the row it leased, whether or not that row is still there.
      && e in s.net.held && e in s.l.routed && s.l.routed[e] != ""
      && (duplicateOf.Some? ==>
            var p := Position(s.net.era, duplicateOf.value); p in s.net.log && s.net.log[p].event == e)
    case RelayPublishFailed(e) => e in s.net.held
    case RelayMarkPublished(e, receipt) => (e, receipt) in s.net.receipts
    case RelayMarkFailed(e, notBefore) => e in s.l.db.outbox
    case RelayCrash(e) => e in s.net.held
    case ReleaseLeases => true
    case SweepScan(e) =>
      e in s.l.db.outbox && s.l.db.outbox[e].retiredAt.None? && RunIsOver(s.l.db, s.l.db.outbox[e].uid)
    case SweepDrop(d) => d in s.net.swept && ShouldDrop(d)
    case SweepRetire(d) => d in s.net.swept
    case RecreateStream => true
    case Deliver(id, process, who, p) => id !in s.floor && p in s.net.queue
    case CheckRoute(id) =>
      id in s.floor && s.floor[id].phase == Fresh && s.floor[id].msg.runner != s.floor[id].who.runner
    case Acquire(id) =>
      && id in s.floor && s.floor[id].phase == Fresh && s.floor[id].msg.runner == s.floor[id].who.runner
      && !Holds(s, s.floor[id].process, s.floor[id].msg.uid)
    case DropDuplicate(id, acked) =>
      && id in s.floor && s.floor[id].phase == Fresh && s.floor[id].msg.runner == s.floor[id].who.runner
      && Holds(s, s.floor[id].process, s.floor[id].msg.uid)
    case AskClaim(id, entry, at, timeout, heard) =>
      id in s.floor && s.floor[id].phase == Claiming && Loaded(s.l, s.floor[id].msg.uid, entry) && at <= s.l.clock
    case ClaimFailed(id, status) =>
      id in s.floor && s.floor[id].phase == Claiming && status != Some(STATUS_CONFLICT)
    case ClaimInterrupted(id) => id in s.floor && s.floor[id].phase == Claiming
    case Dispose(id, acked) => id in s.floor && s.floor[id].phase.Answered?
    case FileReport(id, entry, at) =>
      id in s.floor && s.floor[id].phase.Reporting? && Loaded(s.l, s.floor[id].msg.uid, entry) && at <= s.l.clock
    case ReportFailed(id, status) => id in s.floor && s.floor[id].phase.Reporting?
    case Terminate(id, done) => id in s.floor && (s.floor[id].phase.Filed? || s.floor[id].phase.Unfiled?)
    case Finish(id) => id in s.floor && s.floor[id].phase == Executing
    case CrashProcess(process) => true
  }

  function OnLedger(s: State, db: Db): State {
    s.(l := s.l.(db := db))
  }

  function Apply(s: State, step: Step): State
    requires Enabled(s, step)
  {
    match step
    case Control(step) => s.(l := Ledger.Apply(s.l, step))
    case Tick(now) => s.(l := s.l.(clock := now), net := s.net.(queue := DropAged(s.net.queue, now, s.l.cfg.maxJobAge)))
    case RelayClaim(chosen, relay, lease) =>
      OnLedger(s, s.l.db.(outbox := ClaimRows(s.l.db.outbox, chosen, relay, s.l.clock + lease)))
        .(net := s.net.(held := s.net.held + multiset(chosen)))
    case RelayPublish(e, duplicateOf) => s.(net := Publish(s.net, e, s.l.routed[e], s.l.clock, duplicateOf))
    case RelayPublishFailed(e) => s.(net := BeginPublication(s.net, e))
    case RelayMarkPublished(e, receipt) =>
      OnLedger(s, MarkPublished(s.l.db, e, s.l.clock, receipt.sequence)).(net := s.net.(marks := s.net.marks[e := receipt.era]))
    case RelayMarkFailed(e, notBefore) => OnLedger(s, MarkFailed(s.l.db, e, notBefore))
    case RelayCrash(e) => s.(net := s.net.(held := s.net.held - multiset{e}))
    case ReleaseLeases => OnLedger(s, s.l.db.(outbox := ReleaseAbandoned(s.l.db.outbox, s.l.clock)))
    case SweepScan(e) =>
      var row := s.l.db.outbox[e];
      s.(net := s.net.(swept := s.net.swept + {Stale(row, Delivered(s.l.db, row), EraOf(s.net, e))}))
    case SweepDrop(d) => s.(net := s.net.(queue := s.net.queue - {d.row.publishedSeq}))
    case SweepRetire(d) => OnLedger(s, RetireDispatch(s.l.db, d.row.event, s.l.clock))
    case RecreateStream => s.(net := Recreated(s.net))
    case Deliver(id, process, who, p) =>
      s.(floor := s.floor[id := Handler(process, who, Position(s.net.era, p), s.net.queue[p], false, Fresh)])
    case CheckRoute(id) => SetPhase(s, id, Reporting(MisroutedDispatch))
    case Acquire(id) => s.(floor := s.floor[id := s.floor[id].(holding := true, phase := Claiming)])
    case DropDuplicate(id, acked) =>
      s.(net := s.net.(queue := Leave(s.net.queue, s.floor[id].position, acked)), floor := s.floor - {id})
    case AskClaim(id, entry, at, timeout, heard) =>
      var h := s.floor[id];
      var request := RequestOf(h.msg, timeout);
      var answer := ClaimAnswer(s.l, h.who, request, entry, at);
      SetPhase(s, id, Answered(if heard then OutcomeOf(answer) else ClassifyClaimFailure(None)))
        .(l := Ledger.Apply(s.l, Claim(h.msg.uid, h.who, request, entry, at)))
    case ClaimFailed(id, status) => SetPhase(s, id, Answered(ClassifyClaimFailure(status)))
    case ClaimInterrupted(id) => SetPhase(s, id, Answered(ClaimAbandon))
    case Dispose(id, acked) => DisposeOf(s, id, s.floor[id].phase.outcome, acked)
    case FileReport(id, entry, at) =>
      var h := s.floor[id];
      SetPhase(s, id, Filed(h.phase.reason))
        .(l := Ledger.Apply(s.l, FileFailure(ReportName(h.msg, h.phase.reason), ReportOf(h.msg, h.phase.reason), entry, at)))
    case ReportFailed(id, status) => SetPhase(s, id, Unfiled(status))
    case Terminate(id, done) =>
      s.(net := s.net.(queue := Leave(s.net.queue, s.floor[id].position, MayTerminate(s.floor[id].phase) && done)),
         floor := s.floor - {id})
    case Finish(id) => s.(floor := s.floor - {id})
    case CrashProcess(process) => s.(floor := map i | i in s.floor && s.floor[i].process != process :: s.floor[i])
  }

  /** A run of the system: states linked by enabled steps, from an initial one. */
  ghost predicate Run(states: seq<State>, steps: seq<Step>) {
    && |states| == |steps| + 1 && Init(states[0])
    && forall i {:trigger steps[i]} :: 0 <= i < |steps| ==> Link(states[i], steps[i], states[i + 1])
  }

  ghost predicate Link(s: State, step: Step, t: State) {
    Enabled(s, step) && t == Apply(s, step)
  }
}
