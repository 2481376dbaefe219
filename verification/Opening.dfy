/** How the concrete runs begin: a scenario, one run of it created on a runner, leased,
    published and marked. */
module Opening {
  import opened Domain
  import opened Options
  import opened Tables
  import Ledger
  import opened System

  const SCENARIO := Scenario("s", "probe", 1, true, "", "http", Some("GET /"))
  const EVENT := EventId("u", 1)
  const FIRST := Position(0, 1)

  function Start(): Ledger.State {
    Ledger.State(0, Config(0, 0, 0, 0), Db(map[], map[], map[], map[]), map["probe" := SCENARIO],
                 {}, {}, {}, map[], {}, {}, {}, map[], {})
  }

  function Made(runner: string): Result {
    NewRun("u", SCENARIO, runner, false, 0)
  }

  function Creation(runner: string): Ledger.Step {
    Ledger.Create("u", "probe", runner, false)
  }

  function Created(runner: string): Ledger.State {
    Ledger.Apply(Start(), Creation(runner))
  }

  function OnLease(runner: string): Ledger.State {
    var l := Created(runner);
    l.(db := l.db.(outbox := ClaimRows(l.db.outbox, {EVENT}, "relay", 1)))
  }

  function NewRow(runner: string): Row {
    NewDispatchOutboxEntry(Made(runner), 0)
  }

  function LeasedRow(runner: string): Row {
    NewRow(runner).(claimedBy := "relay", claimExpires := Some(1), attempts := 1)
  }

  function Mail(runner: string): Msg {
    Msg(EVENT, "u", 1, runner, 0)
  }

  function Empty(): Net {
    Net(0, map[], map[], 1, multiset{}, map[], {}, map[], {})
  }

  function Sent(runner: string): Net {
    Net(0, map[1 := Mail(runner)], map[FIRST := Mail(runner)], 2, multiset{}, map[EVENT := 1], {(EVENT, FIRST)}, map[], {})
  }

  /** The run stands as `r`, and its row as `row`. */
  ghost predicate Stands(l: Ledger.State, r: Result, row: Row) {
    && l.clock == 0 && l.cfg == Config(0, 0, 0, 0) && l.db.results == map["u" := r] && r in l.stored
    && l.db.outbox == map[EVENT := row] && l.db.deleted == map[] && l.routed == map[EVENT := row.runner] && l.used == {"u"}
    && l.scenarios == map["probe" := SCENARIO]
  }

  lemma CreatedStands(runner: string)
    requires runner != ""
    ensures Ledger.Enabled(Start(), Creation(runner)) && Stands(Created(runner), Made(runner), NewRow(runner))
    ensures Created(runner).db.failures == map[] && Due(NewRow(runner), 0)
    ensures Made(runner).uid == "u" && Made(runner).version == 1 && Made(runner).status == Pending
  {
  }

  lemma LeasedStands(runner: string)
    requires runner != ""
    ensures Stands(OnLease(runner), Made(runner), LeasedRow(runner)) && OnLease(runner).db.failures == map[]
  {
    hide Created;
    CreatedStands(runner);
  }

  // ----- and marked as published -----

  function MarkedRow(runner: string): Row {
    LeasedRow(runner).(publishedAt := Some(0), publishedSeq := 1, claimedBy := "", claimExpires := None)
  }

  function Marked(runner: string): Ledger.State {
    var l := OnLease(runner);
    l.(db := l.db.(outbox := map[EVENT := MarkedRow(runner)]))
  }

  function Noted(runner: string): Net {
    Sent(runner).(marks := map[EVENT := 0])
  }

  lemma MarkedStands(runner: string)
    requires runner != ""
    ensures Stands(Marked(runner), Made(runner), MarkedRow(runner)) && Marked(runner).db.failures == map[]
    ensures MarkPublished(OnLease(runner).db, EVENT, 0, 1) == Marked(runner).db
    ensures EVENT in OnLease(runner).db.outbox && OnLease(runner).clock == 0
  {
    hide OnLease;
    LeasedStands(runner);
  }

  // ----- the first states -----

  function Begun0(): State {
    State(Start(), Empty(), map[])
  }

  function Begun1(runner: string): State {
    State(Created(runner), Empty(), map[])
  }

  function Begun2(runner: string): State {
    State(OnLease(runner), Empty().(held := multiset{EVENT}), map[])
  }

  function Begun3(runner: string): State {
    State(OnLease(runner), Sent(runner), map[])
  }

  function Begun4(runner: string): State {
    State(Marked(runner), Noted(runner), map[])
  }

  lemma StartIsInitial()
    ensures Init(Begun0())
  {
  }

  lemma CreateLink(runner: string)
    requires runner != ""
    ensures Link(Begun0(), Control(Creation(runner)), Begun1(runner))
  {
    CreatedStands(runner);
  }

  lemma LeaseLink(runner: string)
    requires runner != ""
    ensures Link(Begun1(runner), RelayClaim({EVENT}, "relay", 1), Begun2(runner))
  {
    hide Created;
    CreatedStands(runner);
    assert multiset{} + multiset({EVENT}) == multiset{EVENT};
  }

  lemma PublishLink(runner: string)
    requires runner != ""
    ensures Link(Begun2(runner), RelayPublish(EVENT, None), Begun3(runner))
  {
    hide Created, OnLease;
    LeasedStands(runner);
    assert multiset{EVENT} - multiset{EVENT} == multiset{};
  }

  lemma MarkLink(runner: string)
    requires runner != ""
    ensures Link(Begun3(runner), RelayMarkPublished(EVENT, FIRST), Begun4(runner))
  {
    hide OnLease;
    MarkedStands(runner);
  }

  lemma Opens(runner: string)
    requires runner != ""
    ensures Init(Begun0()) && Link(Begun0(), Control(Creation(runner)), Begun1(runner))
    ensures Link(Begun1(runner), RelayClaim({EVENT}, "relay", 1), Begun2(runner))
    ensures Link(Begun2(runner), RelayPublish(EVENT, None), Begun3(runner))
  {
    hide Link, Init;
    StartIsInitial();
    CreateLink(runner);
    LeaseLink(runner);
    PublishLink(runner);
  }
}
