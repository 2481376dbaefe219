/** The invariant of the whole system, kept by every step of every party. */
module SystemProof {
  import opened Domain
  import opened Options
  import opened Tables
  import Ledger
  import opened LedgerInv
  import opened LedgerProof
  import opened System
  import Labels

  // ----- the broker and what is known about it -----

  ghost predicate MsgOk(l: Ledger.State, m: Msg) {
    && m.event in l.routed && m.event == DispatchEvent(m.uid, m.version) && m.version == CREATED_VERSION
    && m.runner == l.routed[m.event] != "" && m.at <= l.clock && m.uid in l.used
  }

  /** The position addresses a message of this very event. */
  ghost predicate Addresses(net: Net, p: Position, e: EventId) {
    p in net.log && net.log[p].event == e
  }

  /** Below the next free position of the present stream, or of an earlier one. */
  predicate Taken(net: Net, p: Position) {
    0 < p.sequence && (p.era < net.era || (p.era == net.era && p.sequence < net.next))
  }

  /** What the present stream has at a sequence. */
  function Here(net: Net, sequence: nat): Position {
    Position(net.era, sequence)
  }

  ghost predicate LogOk(l: Ledger.State, net: Net) {
    && (forall p :: p in net.log ==> Taken(net, p) && MsgOk(l, net.log[p]))
    && (forall p :: p in net.queue ==>
          && Here(net, p) in net.log && net.log[Here(net, p)] == net.queue[p]
          && !Aged(net.queue[p], l.clock, l.cfg.maxJobAge))
    && (forall e, p :: (e, p) in net.receipts ==> Addresses(net, p, e))
  }

  /** A stored sequence addresses the row's own message, in the incarnation it was marked in. */
  ghost predicate MarkOk(l: Ledger.State, net: Net, e: EventId)
    requires e in l.db.outbox
  {
    l.db.outbox[e].publishedAt.Some? ==>
      e in net.marks && Addresses(net, Position(net.marks[e], l.db.outbox[e].publishedSeq), e)
  }

  ghost predicate RowsOk(l: Ledger.State, net: Net) {
    forall e :: e in l.db.outbox ==>
      MarkOk(l, net, e) && (e !in l.purged ==> Begun(net, e) + net.held[e] <= l.db.outbox[e].attempts)
  }

  ghost predicate SweepOk(l: Ledger.State, net: Net, d: Stale) {
    && d.row.event in l.routed && d.row.event == DispatchEvent(d.row.uid, d.row.version)
    && d.row.uid in l.used && IsOver(l, d.row.uid)
    && (d.row.publishedAt.Some? ==> Addresses(net, Position(d.era, d.row.publishedSeq), d.row.event))
  }

  ghost predicate NetOk(l: Ledger.State, net: Net) {
    && 0 < net.next && LogOk(l, net) && RowsOk(l, net)
    && (forall e :: e in net.held || e in net.begun ==> e in l.routed)
    && (forall d :: d in net.swept ==> SweepOk(l, net, d))
  }

  // ----- the workers -----

  /** The worker was given a capability for the run. */
  ghost predicate Authorised(l: Ledger.State, worker: string, uid: string) {
    exists c :: c in l.issued && c.uid == uid && c.worker == worker
  }

  /** A handler that concluded the run needs no more of this message is right about it; one that
      may execute was authorised to; one that filed a report finds a record on file. */
  ghost predicate HandlerOk(l: Ledger.State, net: Net, h: Handler) {
    && h.position in net.log && net.log[h.position] == h.msg
    && (h.holding ==> h.msg.runner == h.who.runner)
    && (h.phase.Claiming? || h.phase.Answered? || h.phase.Executing? ==> h.holding)
    && (h.phase in {Answered(ClaimAccepted), Answered(ClaimStale), Executing} ==> !IsPending(l, h.msg.uid))
    && (h.phase in {Answered(ClaimAccepted), Executing} ==> Authorised(l, h.who.worker, h.msg.uid))
    && (h.phase.Filed? ==> ReportName(h.msg, h.phase.reason) in l.db.failures)
  }

  predicate SameHold(h: Handler, g: Handler) {
    h.holding && g.holding && h.process == g.process && h.msg.uid == g.msg.uid
  }

  /** A process holds a run through one handler. */
  ghost predicate SoleHolders(floor: map<nat, Handler>) {
    forall i, j :: i in floor && j in floor && SameHold(floor[i], floor[j]) ==> i == j
  }

  ghost predicate FloorOk(l: Ledger.State, net: Net, floor: map<nat, Handler>) {
    SoleHolders(floor) && forall i :: i in floor ==> HandlerOk(l, net, floor[i])
  }

  ghost predicate SysInv(s: State) {
    Inv(s.l) && NetOk(s.l, s.net) && FloorOk(s.l, s.net, s.floor)
  }

  // ----- ledger steps seen from outside -----

  /** Nothing but a relay's own bookkeeping publishes a row or counts an attempt. */
  ghost predicate RowsQuiet(l: Ledger.State, m: Ledger.State) {
    forall e :: e in m.db.outbox ==>
      if e in l.db.outbox then
        && m.db.outbox[e].publishedAt == l.db.outbox[e].publishedAt
        && m.db.outbox[e].publishedSeq == l.db.outbox[e].publishedSeq
        && m.db.outbox[e].attempts == l.db.outbox[e].attempts
      else m.db.outbox[e].publishedAt.None? && m.db.outbox[e].attempts == 0
  }

  predicate LeavesOutbox(step: Ledger.Step) {
    !(step.Create? || step.Retry? || step.ExpireRunning? || step.ExpirePending? || step.Reenqueue? || step.RemoveRow?)
  }

  /** Nothing but the runs and their history. */
  predicate OnlyRuns(l: Ledger.State, m: Ledger.State) {
    m.db.outbox == l.db.outbox && m.routed == l.routed && m.db.failures == l.db.failures
  }

  lemma WriteLeaves(l: Ledger.State, next: Result)
    ensures OnlyRuns(l, Ledger.Write(l, next))
  {
  }

  lemma ClaimLeaves(l: Ledger.State, who: Claimant, request: ClaimRequest, entry: Option<Result>, at: nat)
    ensures OnlyRuns(l, Ledger.ClaimStep(l, who, request, entry, at))
  {
    hide Ledger.Write, Adjudicate, AuthorizeRun, FailRun;
    forall next: Result ensures OnlyRuns(l, Ledger.Write(l, next)) { WriteLeaves(l, next); }
  }

  lemma FileLeaves(l: Ledger.State, name: string, report: Report, entry: Option<Result>, at: nat)
    ensures var m := Ledger.FileStep(l, name, report, entry, at); m.db.outbox == l.db.outbox && m.routed == l.routed
  {
    hide FailRun, NewFailure;
  }

  lemma OutboxLeft(l: Ledger.State, step: Ledger.Step)
    requires LeavesOutbox(step)
    ensures Ledger.Apply(l, step).db.outbox == l.db.outbox
  {
    hide Ledger.ClaimStep, Ledger.FileStep, LegacyCapability, LegacyTake, CompleteRun, FailRun;
    match step {
      case Claim(uid, who, request, entry, at) => ClaimLeaves(l, who, request, entry, at);
      case FileFailure(name, report, entry, at) => FileLeaves(l, name, report, entry, at);
      case _ =>
    }
  }

  lemma ExpiryIsQuiet(l: Ledger.State, run: Result, at: nat)
    ensures RowsQuiet(l, Ledger.ExpireStep(l, run, at))
  {
  }

  lemma SameRowsQuiet(l: Ledger.State, m: Ledger.State)
    requires m.db.outbox == l.db.outbox
    ensures RowsQuiet(l, m)
  {
  }

  lemma InsertIsQuiet(l: Ledger.State, step: Ledger.Step)
    requires OutboxOk(l) && Ledger.Enabled(l, step) && (step.Create? || step.Retry?)
    ensures RowsQuiet(l, Ledger.Apply(l, step))
  {
    NewEvent(l, step.uid);
  }

  lemma ControlIsQuiet(l: Ledger.State, step: Ledger.Step)
    requires OutboxOk(l) && Ledger.Enabled(l, step)
    ensures RowsQuiet(l, Ledger.Apply(l, step))
  {
    hide OutboxOk, Ledger.Enabled;
    match step {
      case Create(uid, name, runner, stamped) => InsertIsQuiet(l, step);
      case Retry(f, original, uid, resolve) => InsertIsQuiet(l, step);
      case ExpireRunning(run, at) => ExpiryIsQuiet(l, run, at);
      case ExpirePending(c) => ExpiryIsQuiet(l, c.run, c.at);
      case Reenqueue(c) =>
      case RemoveRow(e) =>
      case _ =>
        OutboxLeft(l, step);
        SameRowsQuiet(l, Ledger.Apply(l, step));
    }
  }

  lemma LogKept(l: Ledger.State, m: Ledger.State, net: Net)
    requires LogOk(l, net) && Evolves(l, m) && m.clock == l.clock
    ensures LogOk(m, net)
  {
    forall p | p in net.log ensures MsgOk(m, net.log[p]) { assert MsgOk(l, net.log[p]); }
  }

  lemma SweptKept(l: Ledger.State, m: Ledger.State, net: Net)
    requires Evolves(l, m) && forall d :: d in net.swept ==> SweepOk(l, net, d)
    ensures forall d :: d in net.swept ==> SweepOk(m, net, d)
  {
    forall d | d in net.swept ensures SweepOk(m, net, d) {
      assert SweepOk(l, net, d);
      SettledStays(l, m, d.row.uid);
    }
  }

  lemma NetKept(l: Ledger.State, m: Ledger.State, net: Net)
    requires NetOk(l, net) && Evolves(l, m) && RowsQuiet(l, m) && m.clock == l.clock
    requires forall e :: e in l.routed ==> RoutedOk(l, e)
    ensures NetOk(m, net)
  {
    hide LogOk, SweepOk;
    LogKept(l, m, net);
    SweptKept(l, m, net);
    forall e | e in m.db.outbox ensures MarkOk(m, net, e) && (e !in m.purged ==> Begun(net, e) + net.held[e] <= m.db.outbox[e].attempts) {
      RowKept(l, m, net, e);
    }
  }

  /** A row that is new was never leased or published, unless one before it was removed. */
  lemma RowKept(l: Ledger.State, m: Ledger.State, net: Net, e: EventId)
    requires RowsOk(l, net) && RowsQuiet(l, m) && l.purged <= m.purged && e in m.db.outbox
    requires (forall d :: d in net.held || d in net.begun ==> d in l.routed) && (e in l.routed ==> RoutedOk(l, e))
    ensures MarkOk(m, net, e) && (e !in m.purged ==> Begun(net, e) + net.held[e] <= m.db.outbox[e].attempts)
  {
    if e in l.db.outbox {
      assert MarkOk(l, net, e);
    } else if e !in m.purged {
      assert Begun(net, e) == 0 == net.held[e];
    }
  }

  lemma FloorKept(l: Ledger.State, m: Ledger.State, net: Net, floor: map<nat, Handler>)
    requires FloorOk(l, net, floor) && LogOk(l, net) && Evolves(l, m)
    ensures FloorOk(m, net, floor)
  {
    forall i | i in floor ensures HandlerOk(m, net, floor[i]) {
      assert HandlerOk(l, net, floor[i]) && MsgOk(l, floor[i].msg);
      SettledStays(l, m, floor[i].msg.uid);
    }
  }

  lemma ControlKeeps(s: State, step: Ledger.Step)
    requires SysInv(s) && Ledger.Enabled(s.l, step)
    ensures SysInv(s.(l := Ledger.Apply(s.l, step))) && Evolves(s.l, Ledger.Apply(s.l, step))
  {
    var m := Ledger.Apply(s.l, step);
    StepKeeps(s.l, step);
    ControlIsQuiet(s.l, step);
    ClockKept(s.l, step);
    NetKept(s.l, m, s.net);
    FloorKept(s.l, m, s.net, s.floor);
  }

  lemma ClockKept(l: Ledger.State, step: Ledger.Step)
    ensures Ledger.Apply(l, step).clock == l.clock
  {
  }

  // ----- time and relays -----

  lemma TickKeeps(s: State, now: nat)
    requires SysInv(s) && s.l.clock < now
    ensures var t := Apply(s, Tick(now)); SysInv(t) && Evolves(s.l, t.l)
  {
    hide LogOk, SweepOk, FloorOk, Evolves, RunsOk, CapsOk, OutboxOk, FailuresOk, ScansOk;
    var l := s.l.(clock := now);
    var net := s.net.(queue := DropAged(s.net.queue, now, s.l.cfg.maxJobAge));
    SameTables(s.l, l);
    SweptKept(s.l, l, s.net);
    SweptUnder(l, s.net, net);
    FloorKept(s.l, l, s.net, s.floor);
    FloorUnder(l, s.net, net, s.floor);
    AgedOut(s.l, s.net, now);
    assert Apply(s, Tick(now)) == State(l, net, s.floor);
  }

  /** The broker forgets what has outlived its age limit, as time passes. */
  lemma AgedOut(l: Ledger.State, net: Net, now: nat)
    requires LogOk(l, net) && l.clock < now
    ensures LogOk(l.(clock := now), net.(queue := DropAged(net.queue, now, l.cfg.maxJobAge)))
  {
    forall p | p in net.log ensures MsgOk(l.(clock := now), net.log[p]) { assert MsgOk(l, net.log[p]); }
  }

  /** A step that rewrites outbox rows forward, under a broker that knows of them. */
  lemma RowStepKeeps(s: State, rows: map<EventId, Row>, net: Net)
    requires SysInv(s) && RowsForward(s.l, rows) && forall e :: e in net.held ==> e in s.l.routed
    requires net == s.net.(held := net.held, marks := net.marks)
    requires RowsOk(s.l.(db := s.l.db.(outbox := rows)), net)
    ensures var l := s.l.(db := s.l.db.(outbox := rows));
      SysInv(State(l, net, s.floor)) && Evolves(s.l, l)
  {
    hide LogOk, SweepOk, RowsOk, HandlerOk, RowsForward;
    var l := s.l.(db := s.l.db.(outbox := rows));
    RowsForwardKeeps(s.l, rows);
    NetUnderRows(s.l, l, s.net, net);
    FloorKept(s.l, l, s.net, s.floor);
    FloorUnder(l, s.net, net, s.floor);
  }

  lemma NetUnderRows(l: Ledger.State, m: Ledger.State, net: Net, net': Net)
    requires NetOk(l, net) && Evolves(l, m) && m.clock == l.clock
    requires net' == net.(held := net'.held, marks := net'.marks)
    requires (forall e :: e in net'.held ==> e in m.routed) && RowsOk(m, net')
    ensures NetOk(m, net')
  {
    hide RowsOk, SweepOk;
    LogKept(l, m, net);
    SweptKept(l, m, net);
    SweptUnder(m, net, net');
  }

  /** What is known of swept rows and handlers depends only on the log. */
  lemma SweptUnder(l: Ledger.State, net: Net, net': Net)
    requires net'.swept == net.swept && (forall p :: p in net.log ==> p in net'.log && net'.log[p] == net.log[p])
    requires forall d :: d in net.swept ==> SweepOk(l, net, d)
    ensures forall d :: d in net'.swept ==> SweepOk(l, net', d)
  {
    forall d | d in net'.swept ensures SweepOk(l, net', d) { assert SweepOk(l, net, d); }
  }

  lemma FloorUnder(l: Ledger.State, net: Net, net': Net, floor: map<nat, Handler>)
    requires FloorOk(l, net, floor) && forall p :: p in net.log ==> p in net'.log && net'.log[p] == net.log[p]
    ensures FloorOk(l, net', floor)
  {
    forall i | i in floor ensures HandlerOk(l, net', floor[i]) { assert HandlerOk(l, net, floor[i]); }
  }

  lemma RelayClaimKeeps(s: State, t: State, chosen: set<EventId>, relay: string, expiry: nat)
    requires SysInv(s) && forall e :: e in chosen ==> e in s.l.db.outbox && e in s.l.routed
    requires t == State(s.l.(db := s.l.db.(outbox := ClaimRows(s.l.db.outbox, chosen, relay, expiry))),
                        s.net.(held := s.net.held + multiset(chosen)), s.floor)
    ensures SysInv(t) && Evolves(s.l, t.l)
  {
    LeaseForward(s.l, s.net, chosen, relay, expiry);
    RowStepKeeps(s, ClaimRows(s.l.db.outbox, chosen, relay, expiry), t.net);
  }

  lemma RelayClaimStepKeeps(s: State, chosen: set<EventId>, relay: string, lease: nat)
    requires SysInv(s) && Enabled(s, RelayClaim(chosen, relay, lease))
    ensures var t := Apply(s, RelayClaim(chosen, relay, lease)); SysInv(t) && Evolves(s.l, t.l)
  {
    hide Inv, LogOk, SweepOk, FloorOk, Evolves;
    RelayClaimShape(s, chosen, relay, lease);
    forall e | e in chosen ensures e in s.l.routed { RowIsRouted(s.l, e); }
    RelayClaimKeeps(s, Apply(s, RelayClaim(chosen, relay, lease)), chosen, relay, s.l.clock + lease);
  }

  lemma RowIsRouted(l: Ledger.State, e: EventId)
    requires Inv(l) && e in l.db.outbox
    ensures e in l.routed
  {
    assert RowOk(l, e);
  }

  lemma RelayClaimShape(s: State, chosen: set<EventId>, relay: string, lease: nat)
    requires Enabled(s, RelayClaim(chosen, relay, lease))
    ensures forall e :: e in chosen ==> e in s.l.db.outbox
    ensures Apply(s, RelayClaim(chosen, relay, lease))
         == State(s.l.(db := s.l.db.(outbox := ClaimRows(s.l.db.outbox, chosen, relay, s.l.clock + lease))),
                  s.net.(held := s.net.held + multiset(chosen)), s.floor)
  {
  }

  /** Leasing counts the attempt, so the count stays ahead of the leases handed out. */
  lemma LeaseForward(l: Ledger.State, net: Net, chosen: set<EventId>, relay: string, expiry: nat)
    requires RowsOk(l, net)
    ensures RowsForward(l, ClaimRows(l.db.outbox, chosen, relay, expiry))
    ensures RowsOk(l.(db := l.db.(outbox := ClaimRows(l.db.outbox, chosen, relay, expiry))),
                   net.(held := net.held + multiset(chosen)))
  {
    var m := l.(db := l.db.(outbox := ClaimRows(l.db.outbox, chosen, relay, expiry)));
    var net' := net.(held := net.held + multiset(chosen));
    forall e | e in m.db.outbox
      ensures MarkOk(m, net', e) && (e !in m.purged ==> Begun(net', e) + net'.held[e] <= m.db.outbox[e].attempts)
    {
      LeaseCounted(l, net, chosen, relay, expiry, e);
    }
    hide RowsOk, ClaimRows;
    LeaseOnly(l, chosen, relay, expiry);
  }

  lemma LeaseOnly(l: Ledger.State, chosen: set<EventId>, relay: string, expiry: nat)
    ensures RowsForward(l, ClaimRows(l.db.outbox, chosen, relay, expiry))
  {
  }

  lemma LeaseCounted(l: Ledger.State, net: Net, chosen: set<EventId>, relay: string, expiry: nat, e: EventId)
    requires RowsOk(l, net) && e in l.db.outbox
    ensures var m := l.(db := l.db.(outbox := ClaimRows(l.db.outbox, chosen, relay, expiry)));
      var net' := net.(held := net.held + multiset(chosen));
      MarkOk(m, net', e) && (e !in m.purged ==> Begun(net', e) + net'.held[e] <= m.db.outbox[e].attempts)
  {
    assert MarkOk(l, net, e);
  }

  lemma RelayPublishKeeps(s: State, e: EventId, duplicateOf: Option<nat>)
    requires SysInv(s) && Enabled(s, RelayPublish(e, duplicateOf))
    ensures var t := Apply(s, RelayPublish(e, duplicateOf)); SysInv(t) && Evolves(s.l, t.l)
  {
    var t := Apply(s, RelayPublish(e, duplicateOf));
    PublishKeeps(s.l, s.net, e, duplicateOf);
    FloorUnder(s.l, s.net, t.net, s.floor);
    EvolvesReflexive(s.l);
  }

  lemma BeginCounted(l: Ledger.State, net: Net, e: EventId)
    requires RowsOk(l, net) && e in net.held
    ensures RowsOk(l, BeginPublication(net, e))
  {
    var net' := BeginPublication(net, e);
    forall d | d in l.db.outbox
      ensures MarkOk(l, net', d) && (d !in l.purged ==> Begun(net', d) + net'.held[d] <= l.db.outbox[d].attempts)
    {
      assert MarkOk(l, net, d) && (d !in l.purged ==> Begun(net, d) + net.held[d] <= l.db.outbox[d].attempts);
    }
  }

  lemma BeginKeeps(l: Ledger.State, net: Net, e: EventId)
    requires NetOk(l, net) && e in l.routed && e in net.held
    ensures NetOk(l, BeginPublication(net, e))
  {
    hide RowsOk, MsgOk;
    SweptUnder(l, net, BeginPublication(net, e));
    BeginCounted(l, net, e);
  }

  lemma PublishFailedKeeps(s: State, e: EventId)
    requires SysInv(s) && Enabled(s, RelayPublishFailed(e))
    ensures var t := Apply(s, RelayPublishFailed(e)); SysInv(t) && Evolves(s.l, t.l)
  {
    hide Inv, LogOk, RowsOk, SweepOk, HandlerOk;
    BeginKeeps(s.l, s.net, e);
    FloorUnder(s.l, s.net, BeginPublication(s.net, e), s.floor);
    EvolvesReflexive(s.l);
  }

  /** The broker stored the message, or knew it. */
  lemma AcceptKeeps(l: Ledger.State, net: Net, net': Net, e: EventId, p: Position)
    requires NetOk(l, net) && Addresses(net', p, e)
    requires net' == net.(receipts := net.receipts + {(e, p)}, queue := net'.queue, log := net'.log, next := net'.next)
    requires net.next <= net'.next && (forall q :: q in net.log ==> q in net'.log && net'.log[q] == net.log[q])
    requires LogOk(l, net')
    ensures NetOk(l, net')
  {
    hide LogOk;
    SweptUnder(l, net, net');
    forall d | d in l.db.outbox ensures MarkOk(l, net', d) { assert MarkOk(l, net, d); }
    assert forall d :: Begun(net', d) == Begun(net, d);
  }

  lemma PublishKeeps(l: Ledger.State, net: Net, e: EventId, duplicateOf: Option<nat>)
    requires NetOk(l, net) && e in l.routed && RoutedOk(l, e) && l.routed[e] != "" && e in net.held
    requires duplicateOf.Some? ==> Addresses(net, Here(net, duplicateOf.value), e)
    ensures var net' := Publish(net, e, l.routed[e], l.clock, duplicateOf);
      NetOk(l, net') && forall p :: p in net.log ==> p in net'.log && net'.log[p] == net.log[p]
  {
    hide RowsOk, SweepOk, MsgOk, LogOk;
    NextIsFree(l, net);
    var net1, net' := BeginPublication(net, e), Publish(net, e, l.routed[e], l.clock, duplicateOf);
    BeginKeeps(l, net, e);
    match duplicateOf {
      case Some(p) =>
        KnownKeepsLog(l, net1, e, Here(net, p));
        AcceptKeeps(l, net1, net', e, Here(net, p));
      case None =>
        StoreKeepsLog(l, net, e);
        AcceptKeeps(l, net1, net', e, Here(net, net.next));
    }
  }

  lemma NextIsFree(l: Ledger.State, net: Net)
    requires LogOk(l, net)
    ensures Here(net, net.next) !in net.log
  {
  }

  lemma KnownKeepsLog(l: Ledger.State, net: Net, e: EventId, p: Position)
    requires LogOk(l, net) && Addresses(net, p, e)
    ensures LogOk(l, net.(receipts := net.receipts + {(e, p)}))
  {
  }

  lemma StoreKeepsLog(l: Ledger.State, net: Net, e: EventId)
    requires NetOk(l, net) && e in l.routed && RoutedOk(l, e) && l.routed[e] != ""
    ensures LogOk(l, Publish(net, e, l.routed[e], l.clock, None))
  {
    hide RowsOk, SweepOk;
    var net' := Publish(net, e, l.routed[e], l.clock, None);
    assert MsgOk(l, MessageOf(e, l.routed[e], l.clock));
    forall p | p in net'.log ensures Taken(net', p) && MsgOk(l, net'.log[p]) {
      assert p in net.log ==> Taken(net, p) && MsgOk(l, net.log[p]);
    }
    forall e', p | (e', p) in net'.receipts ensures Addresses(net', p, e') {
      assert (e', p) in net.receipts ==> Addresses(net, p, e');
    }
  }

  lemma MarkPublishedForward(l: Ledger.State, e: EventId, at: nat, receipt: nat)
    ensures RowsForward(l, MarkPublished(l.db, e, at, receipt).outbox)
    ensures MarkPublished(l.db, e, at, receipt) == l.db.(outbox := MarkPublished(l.db, e, at, receipt).outbox)
  {
  }

  lemma MarkPublishedAddresses(l: Ledger.State, net: Net, e: EventId, at: nat, receipt: Position)
    requires RowsOk(l, net) && Addresses(net, receipt, e)
    ensures RowsOk(l.(db := l.db.(outbox := MarkPublished(l.db, e, at, receipt.sequence).outbox)),
                   net.(marks := net.marks[e := receipt.era]))
  {
  }

  lemma MarkPublishedKeeps(s: State, e: EventId, receipt: Position)
    requires SysInv(s) && Enabled(s, RelayMarkPublished(e, receipt))
    ensures var t := Apply(s, RelayMarkPublished(e, receipt)); SysInv(t) && Evolves(s.l, t.l)
  {
    hide Inv, SweepOk, FloorOk, Evolves, RowsOk, RowsForward, MarkPublished;
    assert Addresses(s.net, receipt, e);
    MarkPublishedForward(s.l, e, s.l.clock, receipt.sequence);
    MarkPublishedAddresses(s.l, s.net, e, s.l.clock, receipt);
    RowStepKeeps(s, MarkPublished(s.l.db, e, s.l.clock, receipt.sequence).outbox, s.net.(marks := s.net.marks[e := receipt.era]));
  }

  lemma SweepScanKeeps(s: State, e: EventId)
    requires SysInv(s) && Enabled(s, SweepScan(e))
    ensures var t := Apply(s, SweepScan(e)); SysInv(t) && Evolves(s.l, t.l)
  {
    var t := Apply(s, SweepScan(e));
    ScannedOk(s.l, s.net, e);
    FloorUnder(s.l, s.net, t.net, s.floor);
    EvolvesReflexive(s.l);
  }

  lemma ScannedOk(l: Ledger.State, net: Net, e: EventId)
    requires NetOk(l, net) && e in l.db.outbox && RowOk(l, e) && RunIsOver(l.db, l.db.outbox[e].uid)
    ensures var row := l.db.outbox[e]; NetOk(l, net.(swept := net.swept + {Stale(row, Delivered(l.db, row), EraOf(net, e))}))
  {
    var net' := net.(swept := net.swept + {Stale(l.db.outbox[e], Delivered(l.db, l.db.outbox[e]), EraOf(net, e))});
    assert MarkOk(l, net, e);
    forall d | d in net'.swept ensures SweepOk(l, net', d) { assert d in net.swept ==> SweepOk(l, net, d); }
  }

  lemma SweepRetireKeeps(s: State, d: Stale)
    requires SysInv(s) && Enabled(s, SweepRetire(d))
    ensures var t := Apply(s, SweepRetire(d)); SysInv(t) && Evolves(s.l, t.l)
  {
    hide Inv, LogOk, FloorOk, Evolves;
    assert SweepOk(s.l, s.net, d);
    RetireForwardOne(s.l, d.row.event);
    RowStepKeeps(s, RetireDispatch(s.l.db, d.row.event, s.l.clock).outbox, s.net);
  }

  lemma RetireForwardOne(l: Ledger.State, e: EventId)
    requires !IsPending(l, e.uid)
    ensures RowsForward(l, RetireDispatch(l.db, e, l.clock).outbox)
  {
  }

  /** A new stream is empty; what was stored in the ones before keeps its position. */
  lemma RecreateKeeps(s: State)
    requires SysInv(s)
    ensures SysInv(Apply(s, RecreateStream)) && Evolves(s.l, s.l)
  {
    hide Inv, MsgOk, SweepOk, HandlerOk;
    var net := Recreated(s.net);
    SweptUnder(s.l, s.net, net);
    FloorUnder(s.l, s.net, net, s.floor);
    forall e | e in s.l.db.outbox ensures MarkOk(s.l, net, e) { assert MarkOk(s.l, s.net, e); }
    assert forall e :: Begun(net, e) == Begun(s.net, e);
    EvolvesReflexive(s.l);
  }

  // ----- workers -----

  /** A step that takes messages out of the queue and rewrites the handlers. */
  lemma FloorStepKeeps(s: State, queue: map<nat, Msg>, floor: map<nat, Handler>)
    requires SysInv(s) && (forall p :: p in queue ==> p in s.net.queue && queue[p] == s.net.queue[p])
    requires FloorOk(s.l, s.net, floor)
    ensures SysInv(State(s.l, s.net.(queue := queue), floor)) && Evolves(s.l, s.l)
  {
    hide Inv;
    var net := s.net.(queue := queue);
    SweptUnder(s.l, s.net, net);
    FloorUnder(s.l, s.net, net, floor);
    EvolvesReflexive(s.l);
  }

  lemma HandlerStepKeeps(s: State, id: nat, phase: Phase)
    requires SysInv(s) && id in s.floor && HandlerOk(s.l, s.net, s.floor[id].(phase := phase))
    ensures SysInv(SetPhase(s, id, phase))
  {
    hide Inv, NetOk, HandlerOk;
    var t := SetPhase(s, id, phase);
    FloorStepKeeps(s, s.net.queue, t.floor);
    assert t == State(s.l, s.net.(queue := s.net.queue), t.floor);
  }

  /** The heart of safe acknowledgement: for the message a handler holds, the API answers
      "obsolete" only when the run is not pending, however stale the record it decided on. */
  lemma ObsoleteMeansSettled(s: State, h: Handler, entry: Option<Result>, at: nat, timeout: int)
    requires SysInv(s) && HandlerOk(s.l, s.net, h) && h.holding && Ledger.Loaded(s.l, h.msg.uid, entry)
    requires Ledger.ClaimAnswer(s.l, h.who, RequestOf(h.msg, timeout), entry, at) == Ledger.Denied(Obsolete)
    ensures !IsPending(s.l, h.msg.uid)
  {
    var uid := h.msg.uid;
    assert MsgOk(s.l, h.msg);
    if entry.Some? && uid in s.l.db.results {
      var current := s.l.db.results[uid];
      assert RunOk(s.l, entry.value) && RunOk(s.l, current) && Dispatched(s.l, entry.value);
      assert Consistent(entry.value, current) && Consistent(current, entry.value);
    }
  }

  /** A granted claim, new or re-issued, means the run has been taken. */
  lemma GrantMeansTaken(l: Ledger.State, uid: string, who: Claimant, request: ClaimRequest, entry: Option<Result>, at: nat)
    requires Inv(l) && Ledger.Loaded(l, uid, entry) && at <= l.clock
    requires Ledger.ClaimAnswer(l, who, request, entry, at).Granted?
    ensures !IsPending(Ledger.ClaimStep(l, who, request, entry, at), uid)
  {
    hide Evolves, OutboxOk, FailuresOk, ScansOk;
    var m := Ledger.ClaimStep(l, who, request, entry, at);
    ClaimKeeps(l, uid, who, request, entry, at);
    GrantSpeaksFor(l, uid, who, request, entry, at);
    var cap := Ledger.ClaimAnswer(l, who, request, entry, at).cap;
    var r :| r in m.stored && SpeaksFor(cap, r);
    if uid in m.db.results {
      assert RunOk(m, r) && RunOk(m, m.db.results[uid]);
    }
  }

  lemma AskedOk(s: State, id: nat, entry: Option<Result>, at: nat, timeout: int, phase: Phase)
    requires SysInv(s) && id in s.floor && s.floor[id].holding && Ledger.Loaded(s.l, s.floor[id].msg.uid, entry) && at <= s.l.clock
    requires var answer := Ledger.ClaimAnswer(s.l, s.floor[id].who, RequestOf(s.floor[id].msg, timeout), entry, at);
      phase == Answered(OutcomeOf(answer)) || phase == Answered(ClassifyClaimFailure(None))
    ensures HandlerOk(Ledger.ClaimStep(s.l, s.floor[id].who, RequestOf(s.floor[id].msg, timeout), entry, at),
                      s.net, s.floor[id].(phase := phase))
  {
    hide Inv, Evolves;
    var h := s.floor[id];
    var request := RequestOf(h.msg, timeout);
    assert HandlerOk(s.l, s.net, h) && MsgOk(s.l, h.msg);
    var m := Ledger.ClaimStep(s.l, h.who, request, entry, at);
    ClaimKeeps(s.l, h.msg.uid, h.who, request, entry, at);
    var answer := Ledger.ClaimAnswer(s.l, h.who, request, entry, at);
    if answer.Granted? {
      GrantMeansTaken(s.l, h.msg.uid, h.who, request, entry, at);
    } else if answer == Ledger.Denied(Obsolete) {
      ObsoleteMeansSettled(s, h, entry, at, timeout);
      SettledStays(s.l, m, h.msg.uid);
    }
  }

  lemma AskClaimKeeps(s: State, id: nat, entry: Option<Result>, at: nat, timeout: int, heard: bool)
    requires SysInv(s) && Enabled(s, AskClaim(id, entry, at, timeout, heard))
    ensures var t := Apply(s, AskClaim(id, entry, at, timeout, heard)); SysInv(t) && Evolves(s.l, t.l)
  {
    var h := s.floor[id];
    assert HandlerOk(s.l, s.net, h);
    var t := Apply(s, AskClaim(id, entry, at, timeout, heard));
    ControlKeeps(s, Ledger.Claim(h.msg.uid, h.who, RequestOf(h.msg, timeout), entry, at));
    AskedOk(s, id, entry, at, timeout, t.floor[id].phase);
    HandlerStepKeeps(s.(l := t.l), id, t.floor[id].phase);
  }

  /** A report as a ledger step. */
  lemma FileReportIsStep(s: State, id: nat, entry: Option<Result>, at: nat)
    requires Enabled(s, FileReport(id, entry, at))
    ensures var h := s.floor[id];
      var filing := Ledger.FileFailure(ReportName(h.msg, h.phase.reason), ReportOf(h.msg, h.phase.reason), entry, at);
      && Ledger.Enabled(s.l, filing)
      && Apply(s, FileReport(id, entry, at)) == SetPhase(s.(l := Ledger.Apply(s.l, filing)), id, Filed(h.phase.reason))
      && filing.name in Ledger.Apply(s.l, filing).db.failures
  {
    hide ReportName, ReportOf;
    var h := s.floor[id];
    ReportIsNamed(h.msg, h.phase.reason);
    FiledOnRecord(s.l, ReportName(h.msg, h.phase.reason), ReportOf(h.msg, h.phase.reason), entry, at);
  }

  lemma FileReportKeeps(s: State, id: nat, entry: Option<Result>, at: nat)
    requires SysInv(s) && Enabled(s, FileReport(id, entry, at))
    ensures var t := Apply(s, FileReport(id, entry, at)); SysInv(t) && Evolves(s.l, t.l)
  {
    hide ReportName, ReportOf, Ledger.Apply, Ledger.Enabled, Apply, Inv, NetOk, Evolves;
    FileReportIsStep(s, id, entry, at);
    var h := s.floor[id];
    var filing := Ledger.FileFailure(ReportName(h.msg, h.phase.reason), ReportOf(h.msg, h.phase.reason), entry, at);
    ControlKeeps(s, filing);
    var mid := s.(l := Ledger.Apply(s.l, filing));
    assert HandlerOk(mid.l, mid.net, h);
    HandlerStepKeeps(mid, id, Filed(h.phase.reason));
  }

  lemma ReportIsNamed(m: Msg, reason: Reason)
    ensures var report := ReportOf(m, reason);
      && report.event != "" && ReportName(m, reason) == Labels.RecordName(report.event, report.reason)
      && report.uid == m.uid && report.version == m.version
  {
    hide Labels.LabelSafeValue, Labels.Decimal, Labels.ReasonText;
  }

  lemma FiledOnRecord(l: Ledger.State, name: string, report: Report, entry: Option<Result>, at: nat)
    ensures name in Ledger.FileStep(l, name, report, entry, at).db.failures
  {
  }

  /** A dead letter that names a run which existed when it was filed means that run is not pending. */
  lemma RecordedMeansSettled(l: Ledger.State, name: string)
    requires FailuresOk(l) && name in l.known && Names(l.db.failures[name].report, l.db.failures[name].report.uid)
    ensures !IsPending(l, l.db.failures[name].report.uid)
  {
    assert FailureOk(l, l.db.failures[name]);
  }

  predicate TouchesOnlyFloor(step: Step) {
    || step.SweepDrop? || step.Deliver? || step.CheckRoute? || step.Acquire? || step.DropDuplicate?
    || step.ClaimFailed? || step.ClaimInterrupted? || step.Dispose? || step.ReportFailed? || step.Terminate?
    || step.Finish? || step.CrashProcess?
  }

  lemma FloorStepLeaves(s: State, step: Step)
    requires Enabled(s, step) && TouchesOnlyFloor(step)
    ensures var t := Apply(s, step); t == State(s.l, s.net.(queue := t.net.queue), t.floor)
  {
    hide Holds, ShouldDrop, RunIsOver, Delivered, OutcomeOf, ClassifyClaimFailure, MayTerminate, Leave, Ledger.Enabled, Ledger.Apply;
    hide DisposeOf, PermanentReportRefusal;
    if step.Dispose? {
      DisposeLeaves(s, step.id, s.floor[step.id].phase.outcome, step.acked);
    }
  }

  lemma DisposeLeaves(s: State, id: nat, outcome: ClaimOutcome, acked: bool)
    requires id in s.floor
    ensures var t := DisposeOf(s, id, outcome, acked); t == State(s.l, s.net.(queue := t.net.queue), t.floor)
  {
  }

  lemma QueueOnlyShrinks(s: State, step: Step)
    requires Enabled(s, step) && TouchesOnlyFloor(step)
    ensures var t := Apply(s, step); forall p :: p in t.net.queue ==> p in s.net.queue && t.net.queue[p] == s.net.queue[p]
  {
    hide Holds, ShouldDrop, RunIsOver, Delivered, OutcomeOf, ClassifyClaimFailure, MayTerminate, Ledger.Enabled, Ledger.Apply;
  }

  lemma DeliveredHandler(s: State, step: Step)
    requires LogOk(s.l, s.net) && Enabled(s, step) && step.Deliver?
    ensures HandlerOk(s.l, s.net, Apply(s, step).floor[step.id])
  {
  }

  lemma MovedHandler(s: State, step: Step, i: nat)
    requires Enabled(s, step) && TouchesOnlyFloor(step) && !step.Deliver? && i in Apply(s, step).floor
    ensures i in s.floor && Apply(s, step).floor[i] == s.floor[i].(holding := Apply(s, step).floor[i].holding, phase := Apply(s, step).floor[i].phase)
    ensures Apply(s, step).floor[i] != s.floor[i] ==>
      && (step.CheckRoute? || step.Acquire? || step.ClaimFailed? || step.ClaimInterrupted? || step.Dispose? || step.ReportFailed?)
      && i == step.id
  {
  }

  lemma ChangedHandler(s: State, step: Step, i: nat)
    requires Enabled(s, step) && i in s.floor && HandlerOk(s.l, s.net, s.floor[i])
    requires step.CheckRoute? || step.Acquire? || step.ClaimFailed? || step.ClaimInterrupted? || step.Dispose? || step.ReportFailed?
    requires i == step.id && i in Apply(s, step).floor
    ensures HandlerOk(s.l, s.net, Apply(s, step).floor[i])
  {
  }

  lemma FloorStepHandler(s: State, step: Step, i: nat)
    requires LogOk(s.l, s.net) && Enabled(s, step) && TouchesOnlyFloor(step) && i in Apply(s, step).floor
    requires i in s.floor ==> HandlerOk(s.l, s.net, s.floor[i])
    ensures HandlerOk(s.l, s.net, Apply(s, step).floor[i])
  {
    hide LogOk, HandlerOk, Enabled;
    if step.Deliver? {
      if i == step.id {
        DeliveredHandler(s, step);
      }
    } else {
      hide Apply;
      MovedHandler(s, step, i);
      if Apply(s, step).floor[i] != s.floor[i] {
        ChangedHandler(s, step, i);
      }
    }
  }

  /** Only acquiring makes a holder, and only of a run the process does not hold. */
  lemma FloorStepSole(s: State, step: Step)
    requires SoleHolders(s.floor) && Enabled(s, step) && TouchesOnlyFloor(step)
    ensures SoleHolders(Apply(s, step).floor)
  {
  }

  lemma FloorStepFacts(s: State, step: Step)
    requires LogOk(s.l, s.net) && FloorOk(s.l, s.net, s.floor) && Enabled(s, step) && TouchesOnlyFloor(step)
    ensures var t := Apply(s, step);
      && t == State(s.l, s.net.(queue := t.net.queue), t.floor)
      && (forall p :: p in t.net.queue ==> p in s.net.queue && t.net.queue[p] == s.net.queue[p])
      && FloorOk(s.l, s.net, t.floor)
  {
    hide LogOk, HandlerOk, Enabled, Apply, TouchesOnlyFloor;
    FloorStepLeaves(s, step);
    QueueOnlyShrinks(s, step);
    FloorStepSole(s, step);
    var t := Apply(s, step);
    forall i | i in t.floor ensures HandlerOk(s.l, s.net, t.floor[i]) {
      FloorStepHandler(s, step, i);
    }
  }

  predicate IsRelayStep(step: Step) {
    step.RelayClaim? || step.RelayPublish? || step.RelayPublishFailed? || step.RelayMarkPublished? || step.RelayMarkFailed? || step.RelayCrash?
  }

  lemma RelayStepKeeps(s: State, step: Step)
    requires SysInv(s) && Enabled(s, step) && IsRelayStep(step)
    ensures SysInv(Apply(s, step)) && Evolves(s.l, Apply(s, step).l)
  {
    hide SysInv, Evolves;
    match step {
      case RelayClaim(chosen, relay, lease) => RelayClaimStepKeeps(s, chosen, relay, lease);
      case RelayPublish(e, duplicateOf) => RelayPublishKeeps(s, e, duplicateOf);
      case RelayPublishFailed(e) => PublishFailedKeeps(s, e);
      case RelayMarkPublished(e, receipt) => MarkPublishedKeeps(s, e, receipt);
      case RelayMarkFailed(e, notBefore) => MarkFailedKeeps(s, e, notBefore);
      case RelayCrash(e) => RelayCrashKeeps(s, e);
    }
  }

  lemma SysStepKeeps(s: State, step: Step)
    requires SysInv(s) && Enabled(s, step)
    ensures SysInv(Apply(s, step)) && Evolves(s.l, Apply(s, step).l)
  {
    hide SysInv, Evolves;
    if IsRelayStep(step) {
      RelayStepKeeps(s, step);
    } else if TouchesOnlyFloor(step) {
      FloorOnlyKeeps(s, step);
    } else {
      match step {
        case Control(c) => ControlKeeps(s, c);
        case Tick(now) => TickKeeps(s, now);
        case ReleaseLeases => ReleaseKeeps(s);
        case SweepScan(e) => SweepScanKeeps(s, e);
        case SweepRetire(d) => SweepRetireKeeps(s, d);
        case RecreateStream => RecreateKeeps(s);
        case AskClaim(id, entry, at, timeout, heard) => AskClaimKeeps(s, id, entry, at, timeout, heard);
        case FileReport(id, entry, at) => FileReportKeeps(s, id, entry, at);
      }
    }
  }

  lemma FloorOnlyKeeps(s: State, step: Step)
    requires SysInv(s) && Enabled(s, step) && TouchesOnlyFloor(step)
    ensures SysInv(Apply(s, step)) && Evolves(s.l, Apply(s, step).l)
  {
    FloorStepFacts(s, step);
    var t := Apply(s, step);
    FloorStepKeeps(s, t.net.queue, t.floor);
  }

  lemma MarkFailedForward(l: Ledger.State, e: EventId, notBefore: int)
    ensures RowsForward(l, MarkFailed(l.db, e, notBefore).outbox)
    ensures MarkFailed(l.db, e, notBefore) == l.db.(outbox := MarkFailed(l.db, e, notBefore).outbox)
  {
  }

  lemma MarkFailedCounted(l: Ledger.State, net: Net, e: EventId, notBefore: int)
    requires RowsOk(l, net)
    ensures RowsOk(l.(db := l.db.(outbox := MarkFailed(l.db, e, notBefore).outbox)), net)
  {
  }

  lemma MarkFailedKeeps(s: State, e: EventId, notBefore: int)
    requires SysInv(s) && Enabled(s, RelayMarkFailed(e, notBefore))
    ensures var t := Apply(s, RelayMarkFailed(e, notBefore)); SysInv(t) && Evolves(s.l, t.l)
  {
    hide Inv, LogOk, SweepOk, FloorOk, Evolves, RowsOk, RowsForward, MarkFailed;
    MarkFailedForward(s.l, e, notBefore);
    MarkFailedCounted(s.l, s.net, e, notBefore);
    RowStepKeeps(s, MarkFailed(s.l.db, e, notBefore).outbox, s.net);
  }

  lemma ReleaseKeeps(s: State)
    requires SysInv(s)
    ensures var t := Apply(s, ReleaseLeases); SysInv(t) && Evolves(s.l, t.l)
  {
    hide Inv, LogOk, SweepOk, FloorOk, Evolves, RowsOk, RowsForward, ReleaseAbandoned;
    ReleaseForward(s.l);
    ReleaseCounted(s.l, s.net);
    RowStepKeeps(s, ReleaseAbandoned(s.l.db.outbox, s.l.clock), s.net);
  }

  lemma ReleaseForward(l: Ledger.State)
    ensures RowsForward(l, ReleaseAbandoned(l.db.outbox, l.clock))
  {
  }

  lemma ReleaseCounted(l: Ledger.State, net: Net)
    requires RowsOk(l, net)
    ensures RowsOk(l.(db := l.db.(outbox := ReleaseAbandoned(l.db.outbox, l.clock))), net)
  {
  }

  lemma RelayCrashKeeps(s: State, e: EventId)
    requires SysInv(s) && Enabled(s, RelayCrash(e))
    ensures SysInv(Apply(s, RelayCrash(e))) && Evolves(s.l, s.l)
  {
    hide Inv, LogOk, SweepOk, FloorOk, Evolves;
    RowStepKeeps(s, s.l.db.outbox, s.net.(held := s.net.held - multiset{e}));
    assert s.l == s.l.(db := s.l.db.(outbox := s.l.db.outbox));
  }
}
