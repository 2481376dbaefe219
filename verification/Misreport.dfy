/**
 A concrete run of the system in which a pending run loses its message: a record filed earlier
 under its dispatch's name, naming no run, makes the worker's own report a success that strands
 nothing, and the worker then removes the message. `Safety.SafeQueueExit` says that only a record
 about something else can do this, `Safety.CandidQueueExit` that reports about their own dispatch
 never do.
 */
module Misreport {
  import opened Domain
  import opened Options
  import opened Tables
  import Labels
  import Ledger
  import opened LedgerInv
  import opened System
  import opened SystemProof
  import opened Safety
  import opened Opening

  const WHO := Claimant("w", "r")
  const MSG := Msg(EVENT, "u", 1, "r", 0)

  /** The earlier report: this dispatch's event and reason, and no run. */
  const EMPTY_REPORT := Report(Labels.EventName(EVENT), PolicyRefused, "", 0)

  function Name(): string {
    ReportName(MSG, PolicyRefused)
  }

  // ----- the ledger: created, leased, misreported -----

  function Filing(): Ledger.Step {
    Ledger.FileFailure(Name(), EMPTY_REPORT, None, 0)
  }

  function Misreported(): Ledger.State {
    Ledger.Apply(OnLease("r"), Filing())
  }

  lemma MisreportedWaits()
    ensures Ledger.Enabled(OnLease("r"), Filing()) && Stands(Misreported(), Made("r"), LeasedRow("r"))
    ensures Name() in Misreported().db.failures && Misreported().db.failures[Name()].report == EMPTY_REPORT
  {
    hide OnLease, Name, Labels.EventName, Labels.RecordName;
    LeasedStands("r");
    NameIsOf();
  }

  lemma NameIsOf()
    ensures Name() == Labels.RecordName(EMPTY_REPORT.event, PolicyRefused) && EMPTY_REPORT.event != ""
    ensures ReportName(MSG, PolicyRefused) == Name() && ReportOf(MSG, PolicyRefused).uid == "u"
    ensures ReportOf(MSG, PolicyRefused).event == EMPTY_REPORT.event && ReportOf(MSG, PolicyRefused).reason == PolicyRefused
  {
    hide Labels.LabelSafeValue, Labels.ReasonText, Labels.Decimal;
  }

  // ----- the run -----

  function At(phase: Phase): map<nat, Handler> {
    map[0 := Handler(0, WHO, FIRST, MSG, phase != Fresh, phase)]
  }

  function States(): seq<State> {
    [ Begun0(), Begun1("r"), Begun2("r"), Begun3("r"),
      State(Misreported(), Sent("r"), map[]),
      State(Misreported(), Sent("r"), At(Fresh)),
      State(Misreported(), Sent("r"), At(Claiming)),
      State(Misreported(), Sent("r"), At(Answered(ClaimTerminal))),
      State(Misreported(), Sent("r"), At(Reporting(PolicyRefused))),
      State(Misreported(), Sent("r"), At(Filed(PolicyRefused))),
      State(Misreported(), Sent("r").(queue := map[]), map[]) ]
  }

  function Steps(): seq<Step> {
    [ Control(Creation("r")), RelayClaim({EVENT}, "relay", 1), RelayPublish(EVENT, None), Control(Filing()),
      Deliver(0, 0, WHO, 1), Acquire(0), ClaimFailed(0, Some(STATUS_FORBIDDEN)), Dispose(0, true),
      FileReport(0, Some(Made("r")), 0), Terminate(0, true) ]
  }

  lemma FilingLink()
    ensures Link(Begun3("r"), Control(Filing()), State(Misreported(), Sent("r"), map[]))
  {
    hide Created, OnLease, Name;
    MisreportedWaits();
  }

  function Worked(phase: Phase): State {
    State(Misreported(), Sent("r"), At(phase))
  }

  lemma DeliverLink()
    ensures Link(State(Misreported(), Sent("r"), map[]), Deliver(0, 0, WHO, 1), Worked(Fresh))
  {
    hide Misreported;
  }

  lemma AcquireLink()
    ensures Link(Worked(Fresh), Acquire(0), Worked(Claiming))
  {
    hide Misreported;
  }

  lemma ClaimLink()
    ensures Link(Worked(Claiming), ClaimFailed(0, Some(STATUS_FORBIDDEN)), Worked(Answered(ClaimTerminal)))
    ensures Link(Worked(Answered(ClaimTerminal)), Dispose(0, true), Worked(Reporting(PolicyRefused)))
  {
    hide Misreported, Sent;
  }

  lemma MayReport(s: State, entry: Option<Result>, at: nat)
    requires 0 in s.floor && s.floor[0].phase.Reporting? && Ledger.Loaded(s.l, s.floor[0].msg.uid, entry) && at <= s.l.clock
    ensures Enabled(s, FileReport(0, entry, at))
  {
  }

  lemma ReportEnabled()
    ensures Enabled(Worked(Reporting(PolicyRefused)), FileReport(0, Some(Made("r")), 0))
  {
    hide Name, Misreported, Enabled, Sent;
    MisreportedWaits();
    MayReport(Worked(Reporting(PolicyRefused)), Some(Made("r")), 0);
  }

  /** The worker's report finds the record and changes nothing. */
  lemma ReportLink()
    ensures Link(Worked(Reporting(PolicyRefused)), FileReport(0, Some(Made("r")), 0), Worked(Filed(PolicyRefused)))
  {
    ReportEnabled();
    MisreportedHas();
    NameIsOf();
    hide Name, ReportName, ReportOf, Misreported, Sent, Enabled, Ledger.Apply, Ledger.Enabled, Apply;
    FileReportIsStep(Worked(Reporting(PolicyRefused)), 0, Some(Made("r")), 0);
    KnownReport(Misreported(), Name(), ReportOf(MSG, PolicyRefused));
    PhaseSet(Reporting(PolicyRefused), Filed(PolicyRefused));
  }

  lemma PhaseSet(phase: Phase, next: Phase)
    requires phase != Fresh && next != Fresh
    ensures SetPhase(Worked(phase), 0, next) == Worked(next)
  {
    hide Misreported, Sent;
  }

  lemma MisreportedHas()
    ensures Name() in Misreported().db.failures
  {
    hide Name, Misreported;
    MisreportedWaits();
  }

  lemma KnownReport(l: Ledger.State, name: string, report: Report)
    requires name in l.db.failures
    ensures Ledger.Apply(l, Ledger.FileFailure(name, report, Some(Made("r")), 0)) == l
  {
  }

  lemma TerminateLink()
    ensures Link(Worked(Filed(PolicyRefused)), Terminate(0, true), State(Misreported(), Sent("r").(queue := map[]), map[]))
  {
    hide Misreported;
  }

  lemma StepsLink()
    ensures Run(States(), Steps())
  {
    hide Misreported, Created, OnLease, Name, Link, Start, ReportName, Sent, At, Filing;
    Opens("r");
    FilingLink();
    DeliverLink();
    AcquireLink();
    ClaimLink();
    ReportLink();
    TerminateLink();
  }

  lemma LossIsMisreported()
    ensures !AllowedLoss(Worked(Filed(PolicyRefused)), Terminate(0, true), MSG)
    ensures MisreportedLoss(Worked(Filed(PolicyRefused)), Terminate(0, true), MSG)
    ensures IsPending(Misreported(), "u")
  {
    hide Misreported, Name, ReportName;
    MisreportedWaits();
    NameIsOf();
  }

  /** The message of a run that is still pending leaves the queue through a filed report. */
  lemma MisreportedRunIsLost()
    ensures Run(States(), Steps()) && 1 in States()[9].net.queue && 1 !in States()[10].net.queue
    ensures States()[9].net.queue[1].uid == "u" && IsPending(States()[9].l, "u") && IsPending(States()[10].l, "u")
    ensures !AllowedLoss(States()[9], Steps()[9], States()[9].net.queue[1])
    ensures MisreportedLoss(States()[9], Steps()[9], States()[9].net.queue[1])
  {
    hide Misreported, Created, OnLease, Name, Run, AllowedLoss, MisreportedLoss, At, IsPending;
    StepsLink();
    LossIsMisreported();
  }
}
