/**
 A concrete run of the system in which a pending run is expired although its dispatch still waits
 to be published: the row was removed and written again between a scan and the expiry that scan
 asked for. `Safety.PendingExpiryIsSafe` says that it takes a removal.
 */
module Removal {
  import opened Domain
  import opened Options
  import opened Tables
  import Ledger
  import opened LedgerInv
  import opened System
  import opened Safety
  import opened Opening

  function Found(): Ledger.Candidate {
    Ledger.Candidate(Made("r"), Some(MarkedRow("r")), 1)
  }

  function Missing(): Ledger.Candidate {
    Ledger.Candidate(Made("r"), None, 1)
  }

  function Rewritten(): Row {
    NewDispatchOutboxEntry(Made("r"), 1)
  }

  // ----- the ledger, one tick later -----

  function Late(): Ledger.State {
    Marked("r").(clock := 1)
  }

  function StepAt(i: nat): Ledger.Step {
    if i == 0 then Ledger.ScanPending(Made("r"), 1)
    else if i == 1 then Ledger.RemoveRow(EVENT)
    else if i == 2 then Ledger.ScanPending(Made("r"), 1)
    else if i == 3 then Ledger.Reenqueue(Missing())
    else Ledger.ExpirePending(Found())
  }

  function LedgerAt(i: nat): Ledger.State {
    if i == 0 then Late() else Ledger.Apply(LedgerAt(i - 1), StepAt(i - 1))
  }

  ghost predicate Waits(l: Ledger.State, rows: map<EventId, Row>, scanned: set<Ledger.Candidate>) {
    && l.clock == 1 && l.cfg == Config(0, 0, 0, 0) && l.db.results == map["u" := Made("r")] && Made("r") in l.stored
    && l.db.outbox == rows && scanned <= l.scanned
  }

  lemma MadeFacts()
    ensures Made("r").uid == "u" && Made("r").version == 1 && Made("r").status == Pending && Made("r").createdAt == 0
    ensures MarkedRow("r").publishedAt.Some? && !BelongsToRelay(MarkedRow("r")) && BelongsToRelay(Rewritten())
    ensures Rewritten().uid == "u"
  {
  }

  lemma Applied(i: nat)
    requires i > 0
    ensures LedgerAt(i) == Ledger.Apply(LedgerAt(i - 1), StepAt(i - 1))
  {
  }

  lemma Scanned()
    ensures Waits(LedgerAt(0), map[EVENT := MarkedRow("r")], {})
    ensures Ledger.Enabled(LedgerAt(0), StepAt(0)) && Waits(LedgerAt(1), map[EVENT := MarkedRow("r")], {Found()})
  {
    hide Marked, Made, MarkedRow;
    MarkedStands("r");
    MadeFacts();
    Applied(1);
  }

  lemma StepsAre()
    ensures StepAt(1) == Ledger.RemoveRow(EVENT) && StepAt(2) == Ledger.ScanPending(Made("r"), 1)
    ensures StepAt(3) == Ledger.Reenqueue(Missing()) && StepAt(4) == Ledger.ExpirePending(Found())
  {
    hide Made;
  }

  lemma ScanOfNone(l: Ledger.State)
    requires Waits(l, map[], {Found()})
    ensures Ledger.Enabled(l, Ledger.ScanPending(Made("r"), 1))
    ensures Waits(Ledger.Apply(l, Ledger.ScanPending(Made("r"), 1)), map[], {Found(), Missing()})
  {
    hide Made, MarkedRow;
    MadeFacts();
  }

  lemma Removed()
    ensures Ledger.Enabled(LedgerAt(1), StepAt(1)) && Waits(LedgerAt(2), map[], {Found()})
  {
    Scanned();
    hide LedgerAt, StepAt, Made, MarkedRow;
    StepsAre();
    Applied(2);
  }

  lemma ScannedAgain()
    ensures Ledger.Enabled(LedgerAt(2), StepAt(2)) && Waits(LedgerAt(3), map[], {Found(), Missing()})
  {
    Removed();
    hide LedgerAt, StepAt, Made, MarkedRow, Waits, Ledger.Enabled, Ledger.Apply;
    StepsAre();
    ScanOfNone(LedgerAt(2));
    Applied(3);
  }

  lemma WrittenAgain()
    ensures Ledger.Enabled(LedgerAt(3), StepAt(3)) && Waits(LedgerAt(4), map[EVENT := Rewritten()], {Found()})
  {
    ScannedAgain();
    hide LedgerAt, StepAt, Made, MarkedRow;
    StepsAre();
    MadeFacts();
    Applied(4);
  }

  lemma ExpiredAtLast()
    ensures Ledger.Enabled(LedgerAt(4), StepAt(4)) && ExpiryApplies(LedgerAt(4), Made("r"))
    ensures "u" in LedgerAt(5).db.results && LedgerAt(5).db.results["u"].status == Expired
    ensures EVENT in LedgerAt(5).db.outbox && LedgerAt(5).db.outbox[EVENT].publishedAt.None?
  {
    WrittenAgain();
    hide LedgerAt, StepAt, Made, MarkedRow;
    StepsAre();
    MadeFacts();
    Applied(5);
  }

  // ----- the run -----

  function Aged(): Net {
    Noted("r").(queue := map[])
  }

  function At(i: nat): State {
    State(LedgerAt(i), Aged(), map[])
  }

  function States(): seq<State> {
    [Begun0(), Begun1("r"), Begun2("r"), Begun3("r"), Begun4("r"), At(0), At(1), At(2), At(3), At(4), At(5)]
  }

  function Steps(): seq<Step> {
    [ Control(Creation("r")), RelayClaim({EVENT}, "relay", 1), RelayPublish(EVENT, None), RelayMarkPublished(EVENT, FIRST),
      Tick(1), Control(StepAt(0)), Control(StepAt(1)), Control(StepAt(2)), Control(StepAt(3)), Control(StepAt(4)) ]
  }

  lemma TickLink()
    ensures Link(Begun4("r"), Tick(1), At(0))
  {
    hide Marked;
    MarkedStands("r");
  }

  lemma ControlLinks(i: nat)
    requires Ledger.Enabled(LedgerAt(i), StepAt(i))
    ensures Link(At(i), Control(StepAt(i)), At(i + 1))
  {
    hide LedgerAt, StepAt, Ledger.Enabled, Ledger.Apply;
    Applied(i + 1);
  }

  lemma StepsLink()
    ensures Run(States(), Steps())
  {
    Scanned();
    Removed();
    ScannedAgain();
    WrittenAgain();
    ExpiredAtLast();
    hide Link, Begun0, Begun1, Begun2, Begun3, Begun4, At, StepAt, LedgerAt, Ledger.Enabled, Waits;
    Opens("r");
    MarkLink("r");
    TickLink();
    ControlLinks(0);
    ControlLinks(1);
    ControlLinks(2);
    ControlLinks(3);
    ControlLinks(4);
  }

  /** The run is pending with a live row a relay has yet to publish, and its expiry applies. */
  lemma UnpublishedRunExpires()
    ensures Run(States(), Steps()) && Steps()[9] == Control(Ledger.ExpirePending(Found()))
    ensures IsPending(States()[9].l, "u") && EVENT in States()[9].l.db.outbox && BelongsToRelay(States()[9].l.db.outbox[EVENT])
    ensures ExpiryApplies(States()[9].l, Found().run) && "u" in States()[10].l.db.results
         && States()[10].l.db.results["u"].status == Expired
  {
    StepsLink();
    WrittenAgain();
    ExpiredAtLast();
    hide Run, LedgerAt, Made, Begun0, Begun1, Begun2, Begun3, Begun4;
    MadeFacts();
  }
}
