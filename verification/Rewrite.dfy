/**
 A concrete run of the system in which the record of a completed run is rewritten: the worker
 that claimed it reports twice, the second time presenting the version its first report left.
 `Safety.FinishedChangesIff` says this is the only way, and `Safety.FrozenForever` that expired
 and stranded runs are out of its reach.
 */
module Rewrite {
  import opened Domain
  import opened Options
  import opened Tables
  import Ledger
  import opened System
  import opened Safety
  import O = Opening

  const WHO := Claimant("w", "r")
  const REQUEST := ClaimRequest(Some(EventId("u", 1)), 1, 0)

  const CREATED := O.Made("r")
  const CLAIMED := CREATED.(version := 2, status := Running, worker := "w", dispatch := Some(EventId("u", 1)),
                            deadline := Some(DEFAULT_MAX_RUN_DURATION), started := Some(0))
  const REPORTED := CLAIMED.(version := 3, status := Completed, outcome := Reported("success"), ended := Some(0))
  const REWRITTEN := REPORTED.(version := 4, outcome := Reported("failure"))
  const TOKEN := AuthorizeRun(CLAIMED, WHO, Some(EventId("u", 1)), Some(DEFAULT_MAX_RUN_DURATION))

  function StepAt(i: nat): Ledger.Step {
    if i == 0 then O.Creation("r")
    else if i == 1 then Ledger.Claim("u", WHO, REQUEST, Some(CREATED), 0)
    else if i == 2 then Ledger.UpdateStatus(TOKEN, 2, CLAIMED, 0, Reported("success"))
    else Ledger.UpdateStatus(TOKEN, 3, REPORTED, 0, Reported("failure"))
  }

  function LedgerAt(i: nat): Ledger.State {
    if i == 0 then O.Start() else Ledger.Apply(LedgerAt(i - 1), StepAt(i - 1))
  }

  ghost predicate Stands(l: Ledger.State, r: Result) {
    && l.clock == 0 && l.cfg.maxRunDuration == 0 && "u" in l.db.results && l.db.results["u"] == r && r in l.stored
  }

  lemma Created()
    ensures Ledger.Enabled(LedgerAt(0), StepAt(0)) && Stands(LedgerAt(1), CREATED)
  {
  }

  lemma Claimed()
    ensures Ledger.Enabled(LedgerAt(1), StepAt(1)) && Stands(LedgerAt(2), CLAIMED) && TOKEN in LedgerAt(2).issued
  {
    Created();
    assert Adjudicate(Some(CREATED), WHO, REQUEST, 0, 0) == Take(CLAIMED.(version := 1));
  }

  lemma ReportedOnce()
    ensures Ledger.Enabled(LedgerAt(2), StepAt(2)) && Stands(LedgerAt(3), REPORTED) && TOKEN in LedgerAt(3).issued
  {
    Claimed();
    hide LedgerAt;
    ApplyAt(3);
  }

  lemma ReportedTwice()
    ensures Ledger.Enabled(LedgerAt(3), StepAt(3)) && Stands(LedgerAt(4), REWRITTEN)
  {
    ReportedOnce();
    hide LedgerAt;
    ApplyAt(4);
  }

  lemma ApplyAt(i: nat)
    requires i > 0
    ensures LedgerAt(i) == Ledger.Apply(LedgerAt(i - 1), StepAt(i - 1))
  {
  }

  function StateAt(i: nat): State {
    State(LedgerAt(i), O.Empty(), map[])
  }

  function States(): seq<State> {
    [StateAt(0), StateAt(1), StateAt(2), StateAt(3), StateAt(4)]
  }

  function Steps(): seq<Step> {
    [Control(StepAt(0)), Control(StepAt(1)), Control(StepAt(2)), Control(StepAt(3))]
  }

  /** Terminal records are not immutable: this run is completed with one outcome before its last
      step and with another after it. */
  lemma CompletedIsRewritten()
    ensures Run(States(), Steps())
    ensures Finished(States()[3].l, "u") && States()[3].l.db.results["u"].outcome == Reported("success")
    ensures Finished(States()[4].l, "u") && States()[4].l.db.results["u"].outcome == Reported("failure")
  {
    Created();
    Claimed();
    ReportedOnce();
    ReportedTwice();
    hide LedgerAt, StepAt, Ledger.Enabled;
    forall i {:trigger Steps()[i]} | 0 <= i < 4 ensures Link(States()[i], Steps()[i], States()[i + 1]) {
      assert i == 0 || i == 1 || i == 2 || i == 3;
      ApplyAt(i + 1);
    }
    Starts();
  }

  lemma Starts()
    ensures Init(StateAt(0))
  {
  }
}
