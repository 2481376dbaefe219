/**
 When a run is executed by one handler at a time. The in-flight set that keeps a redelivered
 message from being executed again belongs to a process, while the claim is re-issued to a worker
 identity; registering under a name already taken gives a second process the identity of the
 first. At most one execution is certain exactly when no two processes share an identity.
 */
module TwoProcesses {
  import opened Domain
  import opened Options
  import opened Tables
  import Ledger
  import opened System
  import opened SystemProof
  import opened Safety
  import opened Opening

  /** Every process takes messages as the worker it registered as. One that is restarted keeps its
      number, and has forgotten what it held. */
  ghost predicate Staffed(steps: seq<Step>, crew: map<nat, Claimant>) {
    forall k {:trigger steps[k]} :: 0 <= k < |steps| && steps[k].Deliver?
      ==> steps[k].process in crew && crew[steps[k].process] == steps[k].who
  }

  predicate ExecuteSame(h: Handler, g: Handler) {
    h.phase.Executing? && g.phase.Executing? && h.msg.uid == g.msg.uid
  }

  ghost predicate SoleExecution(s: State) {
    forall i, j :: i in s.floor && j in s.floor && ExecuteSame(s.floor[i], s.floor[j]) ==> i == j
  }

  /** No two processes that serve a runner registered as one worker. */
  predicate Distinct(crew: map<nat, Claimant>) {
    forall p, q :: p in crew && q in crew && crew[p] == crew[q] && crew[p].runner != "" ==> p == q
  }

  // ----- distinct identities suffice -----

  lemma WhoStays(s: State, step: Step, i: nat)
    requires Enabled(s, step) && i in Apply(s, step).floor
    ensures
      || (i in s.floor && Apply(s, step).floor[i].process == s.floor[i].process && Apply(s, step).floor[i].who == s.floor[i].who)
      || (step.Deliver? && Apply(s, step).floor[i].process == step.process && Apply(s, step).floor[i].who == step.who)
  {
  }

  lemma {:induction false} StaffedHandler(states: seq<State>, steps: seq<Step>, crew: map<nat, Claimant>, n: nat, i: nat)
    requires Run(states, steps) && Staffed(steps, crew) && n < |states| && i in states[n].floor
    ensures states[n].floor[i].process in crew && crew[states[n].floor[i].process] == states[n].floor[i].who
  {
    hide Apply, Enabled;
    if n > 0 {
      LinkAt(states, steps, n - 1);
      WhoStays(states[n - 1], steps[n - 1], i);
      assert steps[n - 1] == steps[n - 1];
      if i in states[n - 1].floor {
        StaffedHandler(states, steps, crew, n - 1, i);
      }
    }
  }

  lemma ServesRunner(s: State, i: nat)
    requires SysInv(s) && i in s.floor && s.floor[i].phase.Executing?
    ensures s.floor[i].who.runner != ""
  {
    assert HandlerOk(s.l, s.net, s.floor[i]) && MsgOk(s.l, s.floor[i].msg);
  }

  lemma DistinctSuffices(states: seq<State>, steps: seq<Step>, crew: map<nat, Claimant>, n: nat)
    requires Run(states, steps) && Staffed(steps, crew) && Distinct(crew) && n < |states|
    ensures SoleExecution(states[n])
  {
    hide SysInv, Run, Staffed;
    var s := states[n];
    forall i, j | i in s.floor && j in s.floor && ExecuteSame(s.floor[i], s.floor[j]) ensures i == j {
      OneExecution(states, steps, n, i, j);
      StaffedHandler(states, steps, crew, n, i);
      StaffedHandler(states, steps, crew, n, j);
      Reachable(states, steps, n);
      ServesRunner(s, i);
    }
  }

  // ----- and are needed -----

  function Held(who: Claimant): Result {
    Made(who.runner).(version := 2, status := Running, worker := who.worker, runner := who.runner,
                      dispatch := Some(EVENT), deadline := Some(DEFAULT_MAX_RUN_DURATION), started := Some(0))
  }

  function ClaimOf(who: Claimant, entry: Result): Ledger.Step {
    Ledger.Claim("u", who, RequestOf(Mail(who.runner), 0), Some(entry), 0)
  }

  function Claimed(who: Claimant): Ledger.State {
    Ledger.Apply(OnLease(who.runner), ClaimOf(who, Made(who.runner)))
  }

  function Reclaimed(who: Claimant): Ledger.State {
    Ledger.Apply(Claimed(who), ClaimOf(who, Held(who)))
  }

  lemma ClaimedStands(who: Claimant)
    requires who.runner != ""
    ensures Stands(Claimed(who), Held(who), LeasedRow(who.runner))
    ensures Ledger.ClaimAnswer(OnLease(who.runner), who, RequestOf(Mail(who.runner), 0), Some(Made(who.runner)), 0).Granted?
  {
    hide OnLease;
    LeasedStands(who.runner);
    assert Adjudicate(Some(Made(who.runner)), who, RequestOf(Mail(who.runner), 0), 0, 0) == Take(Held(who).(version := 1));
  }

  /** The second claim finds the run held by this very worker, through this very dispatch. */
  lemma ReclaimGranted(who: Claimant)
    requires who.runner != ""
    ensures Held(who) in Claimed(who).stored && Held(who).uid == "u" && Claimed(who).clock == 0
    ensures Ledger.ClaimAnswer(Claimed(who), who, RequestOf(Mail(who.runner), 0), Some(Held(who)), 0).Granted?
  {
    hide Claimed;
    ClaimedStands(who);
    assert Adjudicate(Some(Held(who)), who, RequestOf(Mail(who.runner), 0), 0, 0) == Reissue;
  }

  function At(process: nat, who: Claimant, phase: Phase): Handler {
    Handler(process, who, FIRST, Mail(who.runner), phase != Fresh, phase)
  }

  /** The first process at work, its message not acknowledged. */
  function First(l: Ledger.State, p: nat, who: Claimant, phase: Phase): State {
    State(l, Sent(who.runner), map[0 := At(p, who, phase)])
  }

  /** The second process at work beside it. */
  function Second(l: Ledger.State, p: nat, q: nat, who: Claimant, phase: Phase): State {
    State(l, Sent(who.runner), map[0 := At(p, who, Executing), 1 := At(q, who, phase)])
  }

  function States(p: nat, q: nat, who: Claimant): seq<State> {
    [ Begun0(), Begun1(who.runner), Begun2(who.runner), Begun3(who.runner),
      First(OnLease(who.runner), p, who, Fresh),
      First(OnLease(who.runner), p, who, Claiming),
      First(Claimed(who), p, who, Answered(ClaimAccepted)),
      First(Claimed(who), p, who, Executing),
      Second(Claimed(who), p, q, who, Fresh),
      Second(Claimed(who), p, q, who, Claiming),
      Second(Reclaimed(who), p, q, who, Answered(ClaimAccepted)),
      Second(Reclaimed(who), p, q, who, Executing) ]
  }

  function Steps(p: nat, q: nat, who: Claimant): seq<Step> {
    [ Control(Creation(who.runner)), RelayClaim({EVENT}, "relay", 1), RelayPublish(EVENT, None),
      Deliver(0, p, who, 1), Acquire(0), AskClaim(0, Some(Made(who.runner)), 0, 0, true), Dispose(0, false),
      Deliver(1, q, who, 1), Acquire(1), AskClaim(1, Some(Held(who)), 0, 0, true), Dispose(1, false) ]
  }

  lemma FirstDelivery(l: Ledger.State, p: nat, who: Claimant)
    ensures Link(State(l, Sent(who.runner), map[]), Deliver(0, p, who, 1), First(l, p, who, Fresh))
    ensures Link(First(l, p, who, Fresh), Acquire(0), First(l, p, who, Claiming))
  {
  }

  lemma FirstClaim(p: nat, who: Claimant)
    requires who.runner != ""
    ensures Link(First(OnLease(who.runner), p, who, Claiming), AskClaim(0, Some(Made(who.runner)), 0, 0, true),
                 First(Claimed(who), p, who, Answered(ClaimAccepted)))
  {
    hide OnLease;
    LeasedStands(who.runner);
    ClaimedStands(who);
    hide Made, Ledger.Apply, Ledger.ClaimAnswer;
  }

  /** The claim is accepted; its acknowledgement is lost. */
  lemma FirstDispose(l: Ledger.State, p: nat, who: Claimant)
    ensures Link(First(l, p, who, Answered(ClaimAccepted)), Dispose(0, false), First(l, p, who, Executing))
  {
  }

  lemma SecondDelivery(l: Ledger.State, p: nat, q: nat, who: Claimant)
    requires p != q
    ensures Link(First(l, p, who, Executing), Deliver(1, q, who, 1), Second(l, p, q, who, Fresh))
    ensures Link(Second(l, p, q, who, Fresh), Acquire(1), Second(l, p, q, who, Claiming))
  {
  }

  lemma SecondClaim(p: nat, q: nat, who: Claimant)
    requires who.runner != ""
    ensures Link(Second(Claimed(who), p, q, who, Claiming), AskClaim(1, Some(Held(who)), 0, 0, true),
                 Second(Reclaimed(who), p, q, who, Answered(ClaimAccepted)))
  {
    hide Claimed;
    ReclaimGranted(who);
    hide Held, Ledger.Apply, Ledger.ClaimAnswer;
  }

  lemma SecondDispose(l: Ledger.State, p: nat, q: nat, who: Claimant)
    ensures Link(Second(l, p, q, who, Answered(ClaimAccepted)), Dispose(1, false), Second(l, p, q, who, Executing))
  {
  }

  /** Two processes registered as one worker execute one run at once: the first claimed it and lost
      its acknowledgement, the second was given the message again and its claim re-issued. */
  lemma SharedIdentityFails(p: nat, q: nat, who: Claimant)
    requires p != q && who.runner != ""
    ensures Run(States(p, q, who), Steps(p, q, who)) && !SoleExecution(States(p, q, who)[11])
  {
    hide Link, Created, OnLease, Claimed, Reclaimed, Empty, Sent, Made, Held, Start, Creation;
    Opens(who.runner);
    FirstDelivery(OnLease(who.runner), p, who);
    FirstClaim(p, who);
    FirstDispose(Claimed(who), p, who);
    SecondDelivery(Claimed(who), p, q, who);
    SecondClaim(p, q, who);
    SecondDispose(Reclaimed(who), p, q, who);
    var s := States(p, q, who)[11];
    assert 0 in s.floor && 1 in s.floor && ExecuteSame(s.floor[0], s.floor[1]);
  }

  /** Every run of the system executes each run one handler at a time if and only if no two
      processes registered as the same worker. */
  lemma OneExecutionIff(crew: map<nat, Claimant>)
    ensures (forall states, steps, n: nat :: Run(states, steps) && Staffed(steps, crew) && n < |states| ==> SoleExecution(states[n]))
       <==> Distinct(crew)
  {
    hide Run, SoleExecution, Staffed;
    if Distinct(crew) {
      forall states, steps, n: nat | Run(states, steps) && Staffed(steps, crew) && n < |states|
        ensures SoleExecution(states[n])
      {
        DistinctSuffices(states, steps, crew, n);
      }
    } else {
      var p, q :| p in crew && q in crew && crew[p] == crew[q] && crew[p].runner != "" && p != q;
      SharedIdentityFails(p, q, crew[p]);
      RunIsStaffed(p, q, crew);
    }
  }

  lemma RunIsStaffed(p: nat, q: nat, crew: map<nat, Claimant>)
    requires p in crew && q in crew && crew[p] == crew[q]
    ensures Staffed(Steps(p, q, crew[p]), crew) && |States(p, q, crew[p])| == 12
  {
  }
}
