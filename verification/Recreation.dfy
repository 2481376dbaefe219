/**
 A concrete run of the system in which a recreated stream makes the sweep withdraw another run's
 message. Withdrawals and advisories name a message by its sequence alone, and the new stream counts
 from one again. `Safety.WithdrawalIsPrecise` and `Safety.SequencesIdentifyRows` say that only rows
 marked in an earlier stream can be so mistaken.
 */
module Recreation {
  import opened Domain
  import opened Options
  import opened Tables
  import Ledger
  import opened LedgerInv
  import opened System
  import opened Safety
  import opened Opening

  const OTHER := EventId("v", 1)
  const AGAIN := Position(1, 1)

  const LATER := NewRun("v", SCENARIO, "r", false, 0)
  const LATER_CREATION := Ledger.Create("v", "probe", "r", false)
  const LATER_MAIL := Msg(OTHER, "v", 1, "r", 0)

  // ----- the ledger -----

  function LaterRow(): Row {
    NewDispatchOutboxEntry(LATER, 0)
  }

  function LaterLeased(): Row {
    LaterRow().(claimedBy := "relay", claimExpires := Some(1), attempts := 1)
  }

  function LaterMarked(): Row {
    LaterLeased().(publishedAt := Some(0), publishedSeq := 1, claimedBy := "", claimExpires := None)
  }

  function WithRows(l: Ledger.State, rows: map<EventId, Row>): Ledger.State {
    l.(db := l.db.(outbox := rows))
  }

  function Deleted(): Ledger.State {
    Ledger.Apply(Marked("r"), Ledger.Delete("u"))
  }

  function CreatedLater(): Ledger.State {
    Ledger.Apply(Deleted(), LATER_CREATION)
  }

  function LeasedLater(): Ledger.State {
    WithRows(CreatedLater(), map[EVENT := MarkedRow("r"), OTHER := LaterLeased()])
  }

  function MarkedLater(): Ledger.State {
    WithRows(CreatedLater(), map[EVENT := MarkedRow("r"), OTHER := LaterMarked()])
  }

  /** The first run is gone, its published row is still there, and the second run is pending. */
  ghost predicate Later(l: Ledger.State, row: Row) {
    && l.clock == 0 && l.cfg == Config(0, 0, 0, 0) && l.db.results == map["v" := LATER] && LATER in l.stored
    && l.db.outbox == map[EVENT := MarkedRow("r"), OTHER := row] && "u" in l.db.deleted && l.db.deleted["u"] == Made("r")
    && l.routed == map[EVENT := "r", OTHER := "r"]
  }

  lemma DeletedStands()
    ensures Deleted().clock == 0 && Deleted().cfg == Config(0, 0, 0, 0) && Deleted().db.results == map[]
    ensures Deleted().db.outbox == map[EVENT := MarkedRow("r")] && Deleted().db.deleted == map["u" := Made("r")]
    ensures Deleted().routed == map[EVENT := "r"] && Deleted().used == {"u"} && Deleted().scenarios == map["probe" := SCENARIO]
    ensures Ledger.Enabled(Marked("r"), Ledger.Delete("u"))
  {
    hide Marked;
    MarkedStands("r");
  }

  lemma LaterStands()
    ensures Ledger.Enabled(Deleted(), LATER_CREATION) && Later(CreatedLater(), LaterRow())
    ensures Due(LaterRow(), 0)
  {
    hide Deleted;
    DeletedStands();
  }

  lemma LeasedLaterStands()
    ensures Later(LeasedLater(), LaterLeased())
    ensures ClaimRows(CreatedLater().db.outbox, {OTHER}, "relay", 1) == LeasedLater().db.outbox
  {
    hide CreatedLater;
    LaterStands();
  }

  lemma MarkedLaterStands()
    ensures Later(MarkedLater(), LaterMarked())
    ensures MarkPublished(LeasedLater().db, OTHER, 0, 1) == MarkedLater().db
  {
    hide CreatedLater;
    LaterStands();
  }

  // ----- the run -----

  function Net1(): Net {
    Net(1, map[], map[FIRST := Mail("r")], 1, multiset{}, map[EVENT := 1], {(EVENT, FIRST)}, map[EVENT := 0], {})
  }

  function Net2(): Net {
    Net(1, map[1 := LATER_MAIL], map[FIRST := Mail("r"), AGAIN := LATER_MAIL], 2, multiset{},
        map[EVENT := 1, OTHER := 1], {(EVENT, FIRST), (OTHER, AGAIN)}, map[EVENT := 0], {})
  }

  function Net3(): Net {
    Net2().(marks := map[EVENT := 0, OTHER := 1])
  }

  function Found(): Stale {
    Stale(MarkedRow("r"), false, 0)
  }

  function States(): seq<State> {
    [ Begun0(), Begun1("r"), Begun2("r"), Begun3("r"),
      Begun4("r"),
      State(Deleted(), Noted("r"), map[]),
      State(Deleted(), Net1(), map[]),
      State(CreatedLater(), Net1(), map[]),
      State(LeasedLater(), Net1().(held := multiset{OTHER}), map[]),
      State(LeasedLater(), Net2(), map[]),
      State(MarkedLater(), Net3(), map[]),
      State(MarkedLater(), Net3().(swept := {Found()}), map[]),
      State(MarkedLater(), Net3().(swept := {Found()}, queue := map[]), map[]) ]
  }

  function Steps(): seq<Step> {
    [ Control(Creation("r")), RelayClaim({EVENT}, "relay", 1), RelayPublish(EVENT, None), RelayMarkPublished(EVENT, FIRST),
      Control(Ledger.Delete("u")), RecreateStream, Control(LATER_CREATION), RelayClaim({OTHER}, "relay", 1),
      RelayPublish(OTHER, None), RelayMarkPublished(OTHER, AGAIN), SweepScan(EVENT), SweepDrop(Found()) ]
  }

  lemma DeleteLink()
    ensures Link(Begun4("r"), Control(Ledger.Delete("u")), State(Deleted(), Noted("r"), map[]))
  {
    hide Marked, Noted;
    DeletedStands();
  }

  lemma RecreateLink()
    ensures Link(State(Deleted(), Noted("r"), map[]), RecreateStream, State(Deleted(), Net1(), map[]))
  {
    hide Deleted;
  }

  lemma CreateLaterLink()
    ensures Link(State(Deleted(), Net1(), map[]), Control(LATER_CREATION), State(CreatedLater(), Net1(), map[]))
  {
    hide Deleted, Net1;
    LaterStands();
  }

  lemma LeaseLaterLink()
    ensures Link(State(CreatedLater(), Net1(), map[]), RelayClaim({OTHER}, "relay", 1),
                 State(LeasedLater(), Net1().(held := multiset{OTHER}), map[]))
  {
    hide CreatedLater;
    LaterStands();
    LeasedLaterStands();
    assert multiset{} + multiset({OTHER}) == multiset{OTHER};
  }

  lemma PublishLaterLink()
    ensures Link(State(LeasedLater(), Net1().(held := multiset{OTHER}), map[]), RelayPublish(OTHER, None),
                 State(LeasedLater(), Net2(), map[]))
  {
    hide LeasedLater;
    LeasedLaterStands();
    assert multiset{OTHER} - multiset{OTHER} == multiset{};
  }

  lemma MarkLaterLink()
    ensures Link(State(LeasedLater(), Net2(), map[]), RelayMarkPublished(OTHER, AGAIN), State(MarkedLater(), Net3(), map[]))
  {
    hide CreatedLater;
    LeasedLaterStands();
    MarkedLaterStands();
  }

  /** The sweep finds the row of the deleted run. */
  lemma ScanLink()
    ensures Link(State(MarkedLater(), Net3(), map[]), SweepScan(EVENT), State(MarkedLater(), Net3().(swept := {Found()}), map[]))
  {
    hide MarkedLater, Made, MarkedRow, Link, Net3, EraOf;
    MarkedLaterStands();
    RowOfDeleted();
    NothingSwept();
    assert !Delivered(MarkedLater().db, MarkedRow("r"));
    Scans(State(MarkedLater(), Net3(), map[]), EVENT);
  }

  lemma NothingSwept()
    ensures EraOf(Net3(), EVENT) == 0 && Net3().swept + {Found()} == {Found()}
  {
  }

  lemma Scans(s: State, e: EventId)
    requires e in s.l.db.outbox && s.l.db.outbox[e].retiredAt.None? && RunIsOver(s.l.db, s.l.db.outbox[e].uid)
    ensures var d := Stale(s.l.db.outbox[e], Delivered(s.l.db, s.l.db.outbox[e]), EraOf(s.net, e));
      Link(s, SweepScan(e), s.(net := s.net.(swept := s.net.swept + {d})))
  {
  }

  lemma RowOfDeleted()
    ensures MarkedRow("r").uid == "u" && MarkedRow("r").retiredAt.None? && Made("r").dispatch.None?
  {
  }

  /** And withdraws the message at its sequence. */
  lemma DropLink(l: Ledger.State, net: Net)
    requires net == Net3().(swept := {Found()})
    ensures Link(State(l, net, map[]), SweepDrop(Found()), State(l, net.(queue := map[]), map[]))
  {
    assert net.queue - {1} == map[];
  }

  lemma StepsLink()
    ensures Run(States(), Steps())
  {
    hide Link, Begun0, Begun1, Begun2, Begun3, Begun4, Deleted, CreatedLater, LeasedLater, MarkedLater, Noted, Net1, Net2, Net3, Found;
    Opens("r");
    MarkLink("r");
    DeleteLink();
    RecreateLink();
    CreateLaterLink();
    LeaseLaterLink();
    PublishLaterLink();
    MarkLaterLink();
    ScanLink();
    DropLink(MarkedLater(), Net3().(swept := {Found()}));
  }

  /** Two rows store one sequence, and the withdrawal meant for the run that was deleted takes the
      message of a run that is pending, whose row says that it was published. */
  lemma WrongMessageWithdrawn()
    ensures Run(States(), Steps()) && Steps()[11] == SweepDrop(Found()) && Found().row.event == EVENT
    ensures var outbox := States()[11].l.db.outbox;
      && EVENT in outbox && OTHER in outbox && outbox[EVENT].publishedSeq == outbox[OTHER].publishedSeq == 1
      && outbox[EVENT].publishedAt.Some? && outbox[OTHER].publishedAt.Some?
    ensures 1 in States()[11].net.queue && States()[11].net.queue[1].event == OTHER && 1 !in States()[12].net.queue
    ensures IsPending(States()[11].l, "v") && IsPending(States()[12].l, "v")
  {
    StepsLink();
    hide Run, MarkedLater, Deleted, CreatedLater, LeasedLater, Begun0, Begun1, Begun2, Begun3, Begun4;
    MarkedLaterStands();
  }

  /** What a withdrawal takes, if anything, is the message of the dispatch it is meant for. */
  ghost predicate Precise(s: State, step: Step) {
    step.SweepDrop? && step.stale.row.publishedSeq in s.net.queue ==>
      s.net.queue[step.stale.row.publishedSeq].event == step.stale.row.event
  }

  /** Withdrawals are precise in every run that recreates its stream at most `n` times if and only
      if `n` is zero. */
  lemma PreciseIff(n: nat)
    ensures (forall states: seq<State>, steps: seq<Step>, i: nat ::
               Run(states, steps) && i < |steps| && states[i].net.era <= n ==> Precise(states[i], steps[i]))
       <==> n == 0
  {
    hide Link, Init;
    if n == 0 {
      forall states: seq<State>, steps: seq<Step>, i: nat | Run(states, steps) && i < |steps| && states[i].net.era <= n
        ensures Precise(states[i], steps[i])
      {
        if steps[i].SweepDrop? && steps[i].stale.row.publishedSeq in states[i].net.queue {
          WithdrawalIsPrecise(states, steps, i, steps[i].stale, steps[i].stale.row.publishedSeq);
        }
      }
    } else {
      hide States, Steps;
      WrongMessageWithdrawn();
      InOneRecreation();
      assert !Precise(States()[11], Steps()[11]);
    }
  }

  lemma InOneRecreation()
    ensures |Steps()| == 12 && |States()| == 13 && States()[11].net.era == 1 && Found().row.publishedSeq == 1
  {
  }
}
