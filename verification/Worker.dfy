/**
 The concurrency of one worker process: the consume loop with its semaphore and wait group,
 the goroutine each message is handled in, and the in-flight set that keeps a redelivery from
 being executed beside the original.
 */
module Worker {

  /** The mutex makes each operation atomic; the map's keys are all that is used of it. */
  class InFlightRuns {
    var runs: set<string>

    constructor ()
      ensures runs == {}
    {
      runs := {};
    }

    /** Granted exactly when nobody in this process holds the run. */
    method Acquire(uid: string) returns (granted: bool)
      modifies this
      ensures granted <==> uid !in old(runs)
      ensures runs == Acquired(old(runs), uid)
    {
      if uid in runs {
        return false;
      }
      runs := runs + {uid};
      return true;
    }

    method Release(uid: string)
      modifies this
      ensures runs == Released(old(runs), uid)
    {
      runs := runs - {uid};
    }
  }

  function Acquired(runs: set<string>, uid: string): set<string> {
    runs + {uid}
  }

  function Released(runs: set<string>, uid: string): set<string> {
    runs - {uid}
  }

  /** Where the goroutine of one message is. `Leaving` has returned from handling but still
      occupies its slot; `Freed` has given the slot back and is about to leave the wait group. */
  datatype Stage = Started | Owning | Executing | Leaving | Freed

  datatype Routine = Routine(uid: string, stage: Stage) {
    predicate Owns() { stage.Owning? || stage.Executing? }
    predicate OccupiesSlot() { !stage.Freed? }
  }

  /** Where the consume loop is. `Fetching` and an empty batch hold the slot reserved before the
      fetch; `Blocked` has a surplus message in hand and waits for a slot of its own. */
  datatype Loop = Idle | Fetching | Batch(received: bool) | Blocked(uid: string) | Pausing | Draining | Done

  datatype State = State(limit: nat, occupied: int, waiting: int, cancelled: bool,
                         loop: Loop, routines: map<nat, Routine>, inFlight: set<string>)

  datatype Step =
    | Cancel
    | Reserve
    | SeeShutdown
    | FetchFailed
    | FetchReturned
    | EndPause
    | Receive(id: nat, uid: string)
    | Surplus(uid: string)
    | ReserveSurplus(id: nat)
    | EndBatch
    | Drained
    | Reject(id: nat)
    | Acquire(id: nat)
    | Execute(id: nat)
    | Release(id: nat)
    | FreeSlot(id: nat)
    | LeaveGroup(id: nat)

  predicate Init(s: State) {
    s == State(s.limit, 0, 0, false, Idle, map[], {})
  }

  predicate At(s: State, id: nat, stage: Stage) {
    id in s.routines && s.routines[id].stage == stage
  }

  predicate Enabled(s: State, step: Step) {
    match step
    case Cancel => true
    case Reserve => s.loop.Idle? && s.occupied < s.limit
    case SeeShutdown => s.cancelled && (s.loop.Idle? || s.loop.Blocked? || s.loop.Pausing?)
    case FetchFailed => s.loop.Fetching?
    case FetchReturned => s.loop.Fetching?
    case EndPause => s.loop.Pausing?
    case Receive(id, uid) => s.loop == Batch(false) && id !in s.routines
    case Surplus(uid) => s.loop == Batch(true)
    case ReserveSurplus(id) => s.loop.Blocked? && s.occupied < s.limit && id !in s.routines
    case EndBatch => s.loop.Batch?
    case Drained => s.loop.Draining? && s.waiting == 0
    case Reject(id) => At(s, id, Started)
    case Acquire(id) => At(s, id, Started)
    case Execute(id) => At(s, id, Owning)
    case Release(id) => At(s, id, Owning) || At(s, id, Executing)
    case FreeSlot(id) => At(s, id, Leaving)
    case LeaveGroup(id) => At(s, id, Freed)
  }

  function Spawn(s: State, id: nat, uid: string): State {
    s.(routines := s.routines[id := Routine(uid, Started)], waiting := s.waiting + 1, loop := Batch(true))
  }

  function SetStage(s: State, id: nat, stage: Stage): State
    requires id in s.routines
  {
    s.(routines := s.routines[id := s.routines[id].(stage := stage)])
  }

  function Apply(s: State, step: Step): State
    requires Enabled(s, step)
  {
    match step
    case Cancel => s.(cancelled := true)
    case Reserve => s.(occupied := s.occupied + 1, loop := Fetching)
    case SeeShutdown => s.(loop := Draining)
    case FetchFailed => s.(occupied := s.occupied - 1, loop := if s.cancelled then Draining else Pausing)
    case FetchReturned => s.(loop := Batch(false))
    case EndPause => s.(loop := Idle)
    case Receive(id, uid) => Spawn(s, id, uid)
    case Surplus(uid) => s.(loop := Blocked(uid))
    case ReserveSurplus(id) => Spawn(s.(occupied := s.occupied + 1), id, s.loop.uid)
    case EndBatch => s.(loop := Idle, occupied := if s.loop.received then s.occupied else s.occupied - 1)
    case Drained => s.(loop := Done)
    case Reject(id) => SetStage(s, id, Leaving)
    case Acquire(id) =>
      var uid := s.routines[id].uid;
      if uid in s.inFlight then SetStage(s, id, Leaving)
      else SetStage(s, id, Owning).(inFlight := Acquired(s.inFlight, uid))
    case Execute(id) => SetStage(s, id, Executing)
    case Release(id) => SetStage(s, id, Leaving).(inFlight := Released(s.inFlight, s.routines[id].uid))
    case FreeSlot(id) => SetStage(s, id, Freed).(occupied := s.occupied - 1)
    case LeaveGroup(id) => s.(routines := s.routines - {id}, waiting := s.waiting - 1)
  }

  // ----- the accounting -----

  function Occupants(routines: map<nat, Routine>): set<nat> {
    set i | i in routines && routines[i].OccupiesSlot()
  }

  function Owners(routines: map<nat, Routine>): set<nat> {
    set i | i in routines && routines[i].Owns()
  }

  function One(b: bool): nat {
    if b then 1 else 0
  }

  /** The slot the loop itself holds between reserving it and handing it to a routine. */
  function Reservation(loop: Loop): nat {
    One(loop.Fetching? || loop == Batch(false))
  }

  ghost predicate Accounted(s: State) {
    && s.occupied == |Occupants(s.routines)| + Reservation(s.loop)
    && s.occupied <= s.limit
    && s.waiting == |s.routines.Keys|
    && (s.loop.Done? ==> s.routines.Keys == {})
    && (s.loop.Draining? || s.loop.Done? ==> s.cancelled)
  }

  lemma PutOccupants(routines: map<nat, Routine>, id: nat, t: Routine)
    ensures |Occupants(routines[id := t])|
         == |Occupants(routines)| - One(id in routines && routines[id].OccupiesSlot()) + One(t.OccupiesSlot())
  {
    var before, after := Occupants(routines), Occupants(routines[id := t]);
    var others := before - {id};
    assert before == if id in routines && routines[id].OccupiesSlot() then others + {id} else others;
    assert after == if t.OccupiesSlot() then others + {id} else others;
  }

  lemma PutRoutine(routines: map<nat, Routine>, id: nat, t: Routine)
    ensures |routines[id := t].Keys| == |routines.Keys| + One(id !in routines)
  {
    assert routines[id := t].Keys == routines.Keys + {id};
    assert id in routines ==> routines.Keys + {id} == routines.Keys;
  }

  lemma SpawnAccounts(s: State, id: nat, uid: string)
    requires id !in s.routines && s.loop != Done && s.occupied <= s.limit
    requires s.occupied == |Occupants(s.routines)| + 1 && s.waiting == |s.routines.Keys|
    ensures Accounted(Spawn(s, id, uid))
  {
    PutOccupants(s.routines, id, Routine(uid, Started));
    PutRoutine(s.routines, id, Routine(uid, Started));
  }

  lemma StageAccounts(s: State, id: nat, stage: Stage, t: State)
    requires Accounted(s) && id in s.routines && !s.routines[id].stage.Freed?
    requires t == SetStage(s, id, stage).(occupied := t.occupied, inFlight := t.inFlight)
    requires t.occupied == s.occupied - One(stage.Freed?)
    ensures Accounted(t)
  {
    PutOccupants(s.routines, id, s.routines[id].(stage := stage));
    PutRoutine(s.routines, id, s.routines[id].(stage := stage));
    assert id in s.routines.Keys;
  }

  lemma LeaveAccounts(s: State, id: nat)
    requires Accounted(s) && At(s, id, Freed)
    ensures Accounted(Apply(s, LeaveGroup(id)))
  {
    assert (s.routines - {id}).Keys == s.routines.Keys - {id};
    assert Occupants(s.routines - {id}) == Occupants(s.routines);
  }

  predicate OfRoutine(step: Step) {
    step.Reject? || step.Acquire? || step.Execute? || step.Release? || step.FreeSlot? || step.LeaveGroup?
  }

  lemma RoutineAccounts(s: State, step: Step, t: State)
    requires Accounted(s) && Enabled(s, step) && t == Apply(s, step) && OfRoutine(step)
    ensures Accounted(t)
  {
    hide Occupants, Accounted;
    match step {
      case Reject(id) => StageAccounts(s, id, Leaving, t);
      case Acquire(id) => StageAccounts(s, id, t.routines[id].stage, t);
      case Execute(id) => StageAccounts(s, id, Executing, t);
      case Release(id) => StageAccounts(s, id, Leaving, t);
      case FreeSlot(id) => StageAccounts(s, id, Freed, t);
      case LeaveGroup(id) => LeaveAccounts(s, id);
    }
  }

  lemma LoopAccounts(s: State, step: Step, t: State)
    requires Accounted(s) && Enabled(s, step) && t == Apply(s, step) && !OfRoutine(step)
    ensures Accounted(t)
  {
    hide Occupants;
    match step {
      case Receive(id, uid) => SpawnAccounts(s, id, uid);
      case ReserveSurplus(id) => SpawnAccounts(s.(occupied := s.occupied + 1), id, s.loop.uid);
      case Drained => assert s.routines.Keys == {};
      case _ =>
    }
  }

  lemma Accounts(s: State, step: Step, t: State)
    requires Accounted(s) && Enabled(s, step) && t == Apply(s, step)
    ensures Accounted(t)
  {
    hide Accounted, Apply, Enabled;
    if OfRoutine(step) {
      RoutineAccounts(s, step, t);
    } else {
      LoopAccounts(s, step, t);
    }
  }

  // ----- the in-flight set -----

  ghost predicate OwnsRun(routines: map<nat, Routine>, i: nat, uid: string) {
    i in routines && routines[i].Owns() && routines[i].uid == uid
  }

  ghost predicate SoleOwners(routines: map<nat, Routine>) {
    forall i, j, u :: OwnsRun(routines, i, u) && OwnsRun(routines, j, u) ==> i == j
  }

  /** The in-flight set is the runs of the owning routines, one routine each. */
  ghost predicate Exclusive(s: State) {
    && (forall i :: i in Owners(s.routines) ==> s.routines[i].uid in s.inFlight)
    && (forall u :: u in s.inFlight ==> exists i :: OwnsRun(s.routines, i, u))
    && SoleOwners(s.routines)
    && |s.inFlight| == |Owners(s.routines)|
  }

  /** Steps that touch neither the set nor which routines own what. */
  lemma SameOwnersExclusive(s: State, t: State)
    requires Exclusive(s) && t.inFlight == s.inFlight
    requires forall i, u :: OwnsRun(s.routines, i, u) <==> OwnsRun(t.routines, i, u)
    ensures Exclusive(t)
  {
    assert forall i :: i in Owners(s.routines) <==> i in s.routines && OwnsRun(s.routines, i, s.routines[i].uid);
    assert forall i :: i in Owners(t.routines) <==> i in t.routines && OwnsRun(t.routines, i, t.routines[i].uid);
    assert Owners(t.routines) == Owners(s.routines);
    forall u | u in t.inFlight ensures exists i :: OwnsRun(t.routines, i, u) {
      var i :| OwnsRun(s.routines, i, u);
      assert OwnsRun(t.routines, i, u);
    }
  }

  lemma AcquiringHeld(s: State, id: nat, t: State)
    requires Exclusive(s) && At(s, id, Started) && s.routines[id].uid !in s.inFlight && t == Apply(s, Acquire(id))
    ensures forall i :: i in Owners(t.routines) ==> t.routines[i].uid in t.inFlight
    ensures forall u :: u in t.inFlight ==> exists i :: OwnsRun(t.routines, i, u)
  {
    hide SoleOwners;
    forall u | u in t.inFlight ensures exists i :: OwnsRun(t.routines, i, u) {
      if u == s.routines[id].uid {
        assert OwnsRun(t.routines, id, u);
      } else {
        var i :| OwnsRun(s.routines, i, u);
        assert OwnsRun(t.routines, i, u);
      }
    }
  }

  lemma AcquiringCounts(s: State, id: nat, t: State)
    requires Exclusive(s) && At(s, id, Started) && s.routines[id].uid !in s.inFlight && t == Apply(s, Acquire(id))
    ensures |t.inFlight| == |Owners(t.routines)|
  {
    hide SoleOwners, OwnsRun;
    assert Owners(t.routines) == Owners(s.routines) + {id};
  }

  lemma AcquiringSole(s: State, id: nat, t: State)
    requires Exclusive(s) && At(s, id, Started) && s.routines[id].uid !in s.inFlight && t == Apply(s, Acquire(id))
    ensures SoleOwners(t.routines)
  {
    forall i, j, u | OwnsRun(t.routines, i, u) && OwnsRun(t.routines, j, u) ensures i == j {
      assert i != id ==> OwnsRun(s.routines, i, u) && i in Owners(s.routines);
      assert j != id ==> OwnsRun(s.routines, j, u) && j in Owners(s.routines);
    }
  }

  lemma AcquireExclusive(s: State, id: nat, t: State)
    requires Exclusive(s) && At(s, id, Started) && s.routines[id].uid !in s.inFlight && t == Apply(s, Acquire(id))
    ensures Exclusive(t)
  {
    hide SoleOwners, Apply, OwnsRun, Owners;
    AcquiringSole(s, id, t);
    AcquiringHeld(s, id, t);
    AcquiringCounts(s, id, t);
  }

  lemma ReleaseExclusive(s: State, id: nat)
    requires Exclusive(s) && id in s.routines && s.routines[id].Owns()
    ensures Exclusive(Apply(s, Release(id)))
  {
    var t := Apply(s, Release(id));
    var uid := s.routines[id].uid;
    assert id in Owners(s.routines) && OwnsRun(s.routines, id, uid);
    assert Owners(t.routines) == Owners(s.routines) - {id};
    assert forall i, u :: OwnsRun(t.routines, i, u) <==> OwnsRun(s.routines, i, u) && i != id;
    forall i | i in Owners(t.routines) ensures t.routines[i].uid in t.inFlight {
      assert i in Owners(s.routines) && OwnsRun(s.routines, i, t.routines[i].uid);
    }
    forall u | u in t.inFlight ensures exists i :: OwnsRun(t.routines, i, u) {
      var i :| OwnsRun(s.routines, i, u);
      assert OwnsRun(t.routines, i, u);
    }
  }

  lemma StaysExclusive(s: State, step: Step, t: State)
    requires Exclusive(s) && Enabled(s, step) && t == Apply(s, step)
    ensures Exclusive(t)
  {
    hide Exclusive;
    match step {
      case Acquire(id) =>
        if s.routines[id].uid in s.inFlight {
          SameOwnersExclusive(s, t);
        } else {
          AcquireExclusive(s, id, t);
        }
      case Release(id) => ReleaseExclusive(s, id);
      case _ => SameOwnersExclusive(s, t);
    }
  }

  // ----- every run of the process -----

  ghost predicate Link(s: State, step: Step, t: State) {
    Enabled(s, step) && t == Apply(s, step)
  }

  ghost predicate Run(states: seq<State>, steps: seq<Step>) {
    && |states| == |steps| + 1 && Init(states[0])
    && forall i {:trigger steps[i]} :: 0 <= i < |steps| ==> Link(states[i], steps[i], states[i + 1])
  }

  lemma InitAccounted(s: State)
    requires Init(s)
    ensures Accounted(s) && Exclusive(s)
  {
    assert Occupants(s.routines) == {} && Owners(s.routines) == {};
  }

  lemma LimitStays(s: State, step: Step)
    requires Enabled(s, step)
    ensures Apply(s, step).limit == s.limit
  {
  }

  lemma {:induction false} RunKeeps(states: seq<State>, steps: seq<Step>, n: nat)
    requires Run(states, steps) && n < |states|
    ensures Accounted(states[n]) && Exclusive(states[n]) && states[n].limit == states[0].limit
  {
    if n == 0 {
      InitAccounted(states[0]);
    } else {
      hide Accounted, Exclusive, Enabled, Init;
      RunKeeps(states, steps, n - 1);
      var s, step, t := states[n - 1], steps[n - 1], states[n];
      assert Link(s, step, t);
      LimitStays(s, step);
      Accounts(s, step, t);
      StaysExclusive(s, step, t);
    }
  }

  /** In every run, however fetches fail, batches surprise and shutdown intervenes: the occupied
      slots are the unfinished handlers plus the loop's own reservation, within the limit; no
      handler left and none reserved means no slot is occupied; and the in-flight set, one entry
      per owning handler, stays within the same bound. */
  lemma Backpressure(states: seq<State>, steps: seq<Step>, n: nat)
    requires Run(states, steps) && n < |states|
    ensures var s := states[n];
      && s.occupied == |Occupants(s.routines)| + Reservation(s.loop) <= states[0].limit
      && |s.inFlight| <= |Occupants(s.routines)|
      && (s.loop.Done? ==> s.occupied == 0 && s.inFlight == {} && s.routines == map[])
  {
    RunKeeps(states, steps, n);
    var s := states[n];
    SubsetSize(Owners(s.routines), Occupants(s.routines));
    if s.loop.Done? {
      assert Occupants(s.routines) == {} && Owners(s.routines) == {};
    }
  }

  lemma {:induction false} SubsetSize(a: set<nat>, b: set<nat>)
    requires a <= b
    ensures |a| <= |b|
    decreases |a|
  {
    if x :| x in a {
      SubsetSize(a - {x}, b - {x});
    }
  }

  /** One process never has two live executions of the same run. */
  lemma NeverTwice(states: seq<State>, steps: seq<Step>, n: nat, i: nat, j: nat)
    requires Run(states, steps) && n < |states|
    requires At(states[n], i, Executing) && At(states[n], j, Executing) && states[n].routines[i].uid == states[n].routines[j].uid
    ensures i == j
  {
    RunKeeps(states, steps, n);
    assert OwnsRun(states[n].routines, i, states[n].routines[i].uid) && OwnsRun(states[n].routines, j, states[n].routines[i].uid);
  }

  /** A step other than an arriving shutdown: progress the process makes on its own. */
  ghost predicate CanProceed(s: State) {
    exists step :: step != Cancel && Enabled(s, step)
  }

  /** The semaphore never wedges: with room for at least one handler, some step is possible in
      every state short of a completed shutdown, and a loop that is out of slots has a handler
      that can still give one back. */
  lemma NeverWedged(states: seq<State>, steps: seq<Step>, n: nat, unused: nat)
    requires Run(states, steps) && n < |states| && states[0].limit > 0
    requires !states[n].loop.Done? && unused !in states[n].routines
    ensures CanProceed(states[n])
    ensures states[n].loop.Idle? || states[n].loop.Blocked? ==>
      states[n].occupied < states[n].limit || Occupants(states[n].routines) != {}
  {
    RunKeeps(states, steps, n);
    var s := states[n];
    if i :| i in s.routines {
      RoutineCanProceed(s, i);
    } else {
      assert Occupants(s.routines) == {} && s.routines.Keys == {};
      LoopCanProceed(s, unused);
    }
  }

  lemma RoutineCanProceed(s: State, id: nat)
    requires id in s.routines
    ensures CanProceed(s)
  {
    match s.routines[id].stage {
      case Started => assert Enabled(s, Acquire(id));
      case Owning => assert Enabled(s, Release(id));
      case Executing => assert Enabled(s, Release(id));
      case Leaving => assert Enabled(s, FreeSlot(id));
      case Freed => assert Enabled(s, LeaveGroup(id));
    }
  }

  lemma LoopCanProceed(s: State, id: nat)
    requires !s.loop.Done? && id !in s.routines && s.occupied < s.limit + Reservation(s.loop) && s.waiting == 0
    ensures CanProceed(s)
  {
    match s.loop {
      case Idle => assert Enabled(s, Reserve);
      case Fetching => assert Enabled(s, FetchReturned);
      case Batch(_) => assert Enabled(s, EndBatch);
      case Blocked(_) => assert Enabled(s, ReserveSurplus(id));
      case Pausing => assert Enabled(s, EndPause);
      case Draining => assert Enabled(s, Drained);
    }
  }

  // ----- no message is dropped -----

  /** A handler keeps its message and goes forward one stage at a time: it owns its run only when
      nobody else does, gives it up on leaving, and is forgotten last of all. */
  ghost predicate RoutineMoves(s: State, step: Step, t: State, id: nat)
    requires id in s.routines
  {
    var r := s.routines[id];
    if id !in t.routines then step == LeaveGroup(id) && r.stage.Freed?
    else
      && t.routines[id].uid == r.uid
      && match r.stage
         case Started =>
           t.routines[id].stage ==
             (if step == Acquire(id) then if r.uid in s.inFlight then Leaving else Owning
              else if step == Reject(id) then Leaving else Started)
         case Owning =>
           t.routines[id].stage == if step == Execute(id) then Executing else if step == Release(id) then Leaving else Owning
         case Executing => t.routines[id].stage == if step == Release(id) then Leaving else Executing
         case Leaving => t.routines[id].stage == if step == FreeSlot(id) then Freed else Leaving
         case Freed => t.routines[id].stage.Freed?
  }

  lemma EveryRoutine(states: seq<State>, steps: seq<Step>, n: nat, id: nat)
    requires Run(states, steps) && n < |steps| && id in states[n].routines
    ensures RoutineMoves(states[n], steps[n], states[n + 1], id)
  {
    assert Link(states[n], steps[n], states[n + 1]);
  }

  /** The step hands the message for `uid` to a handler of its own, and goes on with the batch. */
  ghost predicate Handed(t: State, step: Step, uid: string) {
    && (step.Receive? || step.ReserveSurplus?)
    && step.id in t.routines && t.routines[step.id] == Routine(uid, Started) && t.loop == Batch(true)
  }

  lemma ReceivedIsHanded(states: seq<State>, steps: seq<Step>, n: nat)
    requires Run(states, steps) && n < |steps| && steps[n].Receive?
    ensures Handed(states[n + 1], steps[n], steps[n].uid)
  {
    assert Link(states[n], steps[n], states[n + 1]);
  }

  /** The loop has the message in hand, and gives it to a handler or stops. */
  ghost predicate LetGo(s: State, step: Step, t: State, uid: string) {
    s.loop == Blocked(uid) && (Handed(t, step, uid) || (step.SeeShutdown? && s.cancelled))
  }

  /** A message that came as a surplus stays in hand until a slot is free for it; nothing but a
      shutdown makes the loop let go of it. */
  lemma {:induction false} SurplusIsHanded(states: seq<State>, steps: seq<Step>, n: nat, m: nat)
    requires Run(states, steps) && n < m < |states| && steps[n].Surplus? && states[m].loop != Blocked(steps[n].uid)
    ensures exists k :: n < k < m && LetGo(states[k], steps[k], states[k + 1], steps[n].uid)
    decreases m
  {
    assert Link(states[m - 1], steps[m - 1], states[m]);
    if m - 1 > n {
      if states[m - 1].loop != Blocked(steps[n].uid) {
        SurplusIsHanded(states, steps, n, m - 1);
      } else {
        assert LetGo(states[m - 1], steps[m - 1], states[m], steps[n].uid);
      }
    }
  }

  /** Once asked to stop, the loop needs no handler to stop consuming: a step of its own, after the
      batch in hand if there is one, and it only waits for the handlers it started. */
  lemma ShutdownIsPrompt(s: State)
    requires s.cancelled && !s.loop.Draining? && !s.loop.Done?
    ensures var first := if s.loop.Batch? then EndBatch else if s.loop.Fetching? then FetchFailed else SeeShutdown;
      && Enabled(s, first)
      && var t := Apply(s, first);
         t.routines == s.routines
         && if s.loop.Batch? then Enabled(t, SeeShutdown) && Apply(t, SeeShutdown).loop.Draining? else t.loop.Draining?
  {
  }
}
