/**
 Which runner takes a run: a deterministic ranking while somebody has room, a weighted draw
 once nobody has. The matching runners arrive in UID order and a fleet is the capacities of the
 eligible ones in that order, so a runner is its position and the lower UID is the lower position.
 */
module Placement {
  import opened Options

  /** `ready` workers are registered and not paused, whether or not they can be reached. */
  datatype Capacity = Capacity(online: nat, registered: nat, ready: nat, queued: nat, running: nat) {
    function Committed(): nat {
      queued + running
    }

    /** Negative when the runner is behind, by how much. */
    function Spare(): int {
      online - Committed()
    }

    predicate HasRoom() {
      Spare() > 0
    }

    /** Committed work per online worker. */
    function Pressure(): Pressure {
      if online == 0 then Infinite else Finite(Committed() as real / online as real)
    }
  }

  datatype Pressure = Finite(load: real) | Infinite {
    predicate Below(other: Pressure) {
      Finite? && (other.Finite? ==> load < other.load)
    }
  }

  type Fleet = seq<Capacity>

  datatype Regime = BySpare | Saturated | SoleCandidate | Unmeasured

  /** Why a run is stranded at birth. */
  datatype Reason = InvalidRequirements | NoEligibleRunner

  datatype Decision = Unplaced(reason: Reason) | Placed(runner: nat, regime: Regime)

  // ----- candidates -----

  /** A runner the requirements match. */
  datatype Candidate = Candidate(active: bool, capacity: Capacity)

  /** The runners that match, or nothing when the requirements do not parse. */
  type Listing = Option<seq<Candidate>>

  /** Only an active runner may be given work. */
  function Eligible(matching: seq<Candidate>): Fleet {
    if matching == [] then [] else
      var last := matching[|matching| - 1];
      Eligible(matching[..|matching| - 1]) + if last.active then [last.capacity] else []
  }

  /** What keeps a run from being placed anywhere, if anything does. */
  ghost function Refused(listing: Listing): Option<Reason> {
    match listing
    case None => Some(InvalidRequirements)
    case Some(matching) =>
      if forall i :: 0 <= i < |matching| ==> !matching[i].active then Some(NoEligibleRunner) else None
  }

  lemma {:induction false} EligibleIffActive(matching: seq<Candidate>)
    ensures Eligible(matching) == [] <==> forall i :: 0 <= i < |matching| ==> !matching[i].active
  {
    if matching != [] {
      EligibleIffActive(matching[..|matching| - 1]);
    }
  }

  /** How many of the matching runners are active. */
  function CountActive(matching: seq<Candidate>): nat {
    if matching == [] then 0
    else CountActive(matching[..|matching| - 1]) + if matching[|matching| - 1].active then 1 else 0
  }

  /** The eligible runners are the active ones and no others, in the order they matched. */
  lemma {:induction false} EligibleInOrder(matching: seq<Candidate>)
    ensures |Eligible(matching)| == CountActive(matching)
    ensures forall i :: 0 <= i < |matching| && matching[i].active ==>
      CountActive(matching[..i]) < |Eligible(matching)| && Eligible(matching)[CountActive(matching[..i])] == matching[i].capacity
  {
    if matching != [] {
      var front := matching[..|matching| - 1];
      EligibleInOrder(front);
      forall i | 0 <= i < |matching| && matching[i].active
        ensures CountActive(matching[..i]) < |Eligible(matching)| && Eligible(matching)[CountActive(matching[..i])] == matching[i].capacity
      {
        if i < |front| {
          assert front[..i] == matching[..i] && front[i] == matching[i];
        }
      }
    }
  }

  method Candidates(matching: seq<Candidate>) returns (eligible: Fleet)
    ensures eligible == Eligible(matching)
  {
    eligible := [];
    for i := 0 to |matching|
      invariant eligible == Eligible(matching[..i])
    {
      assert matching[..i + 1][..i] == matching[..i];
      if matching[i].active {
        eligible := eligible + [matching[i].capacity];
      }
    }
    assert matching[..|matching|] == matching;
  }

  // ----- the ranking -----

  datatype Rank = Rank(spare: int, pressure: Pressure, runner: nat)

  function RankOf(fleet: Fleet, i: nat): Rank
    requires i < |fleet|
  {
    Rank(fleet[i].Spare(), fleet[i].Pressure(), i)
  }

  /** More spare, then less pressure, then the lower UID. */
  predicate Before(a: Rank, b: Rank) {
    if a.spare != b.spare then a.spare > b.spare
    else if a.pressure != b.pressure then a.pressure.Below(b.pressure)
    else a.runner < b.runner
  }

  lemma BeforeIsTotal(a: Rank, b: Rank)
    requires a.runner != b.runner
    ensures Before(a, b) != Before(b, a)
  {
  }

  lemma BeforeIsTransitive(a: Rank, b: Rank, c: Rank)
    requires Before(a, b) && Before(b, c)
    ensures Before(a, c)
  {
  }

  ghost predicate SomebodyHasRoom(fleet: Fleet) {
    exists i :: 0 <= i < |fleet| && fleet[i].HasRoom()
  }

  /** Runner `i` has room and ranks before every other runner that has. */
  ghost predicate IsFirst(fleet: Fleet, i: nat) {
    && i < |fleet| && fleet[i].HasRoom()
    && forall j :: 0 <= j < |fleet| && j != i && fleet[j].HasRoom() ==>
         Before(RankOf(fleet, i), RankOf(fleet, j))
  }

  /** What being first comes to, in counts: room, the most of it, then the smallest share of the
      workers taken, then the lower position. */
  ghost predicate IsBest(fleet: Fleet, i: nat) {
    && i < |fleet| && fleet[i].queued + fleet[i].running < fleet[i].online
    && forall j :: 0 <= j < |fleet| && fleet[j].queued + fleet[j].running < fleet[j].online ==> IsNoWorse(fleet[i], i, fleet[j], j)
  }

  ghost predicate IsNoWorse(a: Capacity, i: nat, b: Capacity, j: nat) {
    var mine, other := a.queued + a.running, b.queued + b.running;
    && b.online - other <= a.online - mine
    && (b.online - other == a.online - mine ==>
          && mine * b.online <= other * a.online
          && (mine * b.online == other * a.online ==> i <= j))
  }

  /** Shares compare as their cross products do. */
  lemma SharesCompare(a: int, b: int, c: int, d: int)
    requires b > 0 && d > 0
    ensures a as real / b as real < c as real / d as real <==> a * d < c * b
    ensures a as real / b as real == c as real / d as real <==> a * d == c * b
  {
    var x, y := a as real / b as real, c as real / d as real;
    var bd := (b * d) as real;
    assert x * bd == (a * d) as real by { assert x * (b as real) == a as real; assert bd == (b as real) * (d as real); }
    assert y * bd == (c * b) as real by { assert y * (d as real) == c as real; assert bd == (d as real) * (b as real); }
  }

  lemma BeforeInCounts(fleet: Fleet, i: nat, j: nat)
    requires i < |fleet| && j < |fleet| && i != j && fleet[i].HasRoom() && fleet[j].HasRoom()
    ensures Before(RankOf(fleet, i), RankOf(fleet, j)) <==> IsNoWorse(fleet[i], i, fleet[j], j)
  {
    SharesCompare(fleet[i].Committed(), fleet[i].online, fleet[j].Committed(), fleet[j].online);
  }

  /** Being first in rank is being best in counts. */
  lemma FirstIsBest(fleet: Fleet, i: nat)
    ensures IsFirst(fleet, i) <==> IsBest(fleet, i)
  {
    hide RankOf, Before, IsNoWorse;
    if i < |fleet| && fleet[i].HasRoom() {
      BestBySelf(fleet[i], i);
      forall j | 0 <= j < |fleet| && j != i && fleet[j].HasRoom()
        ensures Before(RankOf(fleet, i), RankOf(fleet, j)) <==> IsNoWorse(fleet[i], i, fleet[j], j)
      {
        BeforeInCounts(fleet, i, j);
      }
    }
  }

  lemma BestBySelf(a: Capacity, i: nat)
    ensures IsNoWorse(a, i, a, i)
  {
  }

  // ----- the weighted draw -----

  function Sum(weights: seq<nat>): nat {
    if weights == [] then 0 else Sum(weights[..|weights| - 1]) + weights[|weights| - 1]
  }

  lemma {:induction false} SumIsMonotone(weights: seq<nat>, i: nat, j: nat)
    requires i <= j <= |weights|
    ensures Sum(weights[..i]) <= Sum(weights[..j])
    decreases j - i
  {
    if i < j {
      SumIsMonotone(weights, i, j - 1);
      assert weights[..j][..j - 1] == weights[..j - 1];
    }
  }

  /** The draw `target` falls in the stretch of the total that belongs to index `i`. */
  predicate FallsOn(weights: seq<nat>, target: int, i: nat) {
    i < |weights| && Sum(weights[..i]) <= target < Sum(weights[..i]) + weights[i]
  }

  lemma StretchEnds(weights: seq<nat>, i: nat, j: nat)
    requires i < j <= |weights|
    ensures Sum(weights[..i]) + weights[i] <= Sum(weights[..j])
  {
    assert weights[..i + 1][..i] == weights[..i];
    SumIsMonotone(weights, i + 1, j);
  }

  lemma FallsOnOne(weights: seq<nat>, target: int, i: nat, j: nat)
    requires FallsOn(weights, target, i) && FallsOn(weights, target, j)
    ensures i == j
  {
    if i < j {
      StretchEnds(weights, i, j);
    } else if j < i {
      StretchEnds(weights, j, i);
    }
  }

  /** Walks the weights, subtracting. Every draw below the total lands on one index; the final
      fall-through is reached exactly by draws outside it. */
  method Draw(weights: seq<nat>, target: int) returns (index: nat)
    requires |weights| > 0
    ensures index < |weights|
    ensures 0 <= target < Sum(weights) ==> FallsOn(weights, target, index)
    ensures Sum(weights) <= target ==> index == 0
  {
    var left := target;
    assert weights[..|weights|] == weights;
    for i := 0 to |weights|
      invariant left == target - Sum(weights[..i])
      invariant 0 <= target ==> 0 <= left
    {
      StretchEnds(weights, i, |weights|);
      assert weights[..i + 1][..i] == weights[..i];
      if left < weights[i] {
        return i;
      }
      left := left - weights[i];
    }
    return 0;
  }

  /** How many of the draws below `n` select index `i`. */
  function Draws(weights: seq<nat>, i: nat, n: nat): nat {
    if n == 0 then 0 else Draws(weights, i, n - 1) + if FallsOn(weights, n - 1, i) then 1 else 0
  }

  lemma {:induction false} DrawsSoFar(weights: seq<nat>, i: nat, n: nat)
    requires i < |weights|
    ensures var base := Sum(weights[..i]);
      Draws(weights, i, n) == if n <= base then 0 else if n <= base + weights[i] then n - base else weights[i]
  {
    if n > 0 {
      DrawsSoFar(weights, i, n - 1);
    }
  }

  /** Of the `total` possible draws exactly `weights[i]` select index `i`. */
  lemma DrawIsExact(weights: seq<nat>, i: nat)
    requires i < |weights|
    ensures Draws(weights, i, Sum(weights)) == weights[i]
  {
    DrawsSoFar(weights, i, Sum(weights));
    assert weights[..|weights|] == weights;
    StretchEnds(weights, i, |weights|);
  }

  ghost predicate SelectsExactlyOne(weights: seq<nat>, target: nat) {
    (exists i: nat :: FallsOn(weights, target, i))
    && forall i: nat, j: nat :: FallsOn(weights, target, i) && FallsOn(weights, target, j) ==> i == j
  }

  /** Every draw below the total selects some index. */
  lemma {:induction false} DrawIsTotal(weights: seq<nat>, target: nat)
    requires target < Sum(weights)
    ensures exists i: nat :: FallsOn(weights, target, i)
  {
    assert |weights| > 0;
    var n := |weights| - 1;
    var front := weights[..n];
    if target < Sum(front) {
      DrawIsTotal(front, target);
      var i: nat :| FallsOn(front, target, i);
      assert front[..i] == weights[..i];
      assert FallsOn(weights, target, i);
    } else {
      assert FallsOn(weights, target, n);
    }
  }

  /** One count of each runner. */
  function Each(fleet: Fleet, count: Capacity -> nat): seq<nat> {
    seq(|fleet|, i requires 0 <= i < |fleet| => count(fleet[i]))
  }

  function OnlineWeights(fleet: Fleet): seq<nat> {
    seq(|fleet|, i requires 0 <= i < |fleet| => fleet[i].online)
  }

  function RegisteredWeights(fleet: Fleet): seq<nat> {
    seq(|fleet|, i requires 0 <= i < |fleet| => fleet[i].registered)
  }

  function EvenWeights(n: nat): (weights: seq<nat>)
    ensures |weights| == n && forall i :: 0 <= i < n ==> weights[i] == 1
  {
    seq(n, _ => 1)
  }

  /** Online workers; failing that, registered ones; failing that, an even chance. */
  function DrawWeights(fleet: Fleet): (weights: seq<nat>)
    ensures |weights| == |fleet|
  {
    if Sum(OnlineWeights(fleet)) > 0 then OnlineWeights(fleet)
    else if Sum(RegisteredWeights(fleet)) > 0 then RegisteredWeights(fleet)
    else EvenWeights(|fleet|)
  }

  lemma {:induction false} EvenSum(n: nat)
    ensures Sum(EvenWeights(n)) == n
  {
    if n > 0 {
      EvenSum(n - 1);
      assert EvenWeights(n)[..n - 1] == EvenWeights(n - 1);
    }
  }

  /** There is always something to draw from. */
  lemma DrawWeightsArePositive(fleet: Fleet)
    requires fleet != []
    ensures Sum(DrawWeights(fleet)) > 0
  {
    EvenSum(|fleet|);
  }

  /** A runner's share of the draws: its workers that are online, those registered when nobody's are
      online, one when nobody has any. */
  ghost function Share(fleet: Fleet, i: nat): nat
    requires i < |fleet|
  {
    if exists j :: 0 <= j < |fleet| && fleet[j].online > 0 then fleet[i].online
    else if exists j :: 0 <= j < |fleet| && fleet[j].registered > 0 then fleet[i].registered
    else 1
  }

  lemma {:induction false} SumIsPositive(weights: seq<nat>)
    ensures Sum(weights) > 0 <==> exists i :: 0 <= i < |weights| && weights[i] > 0
  {
    if weights != [] {
      var n := |weights| - 1;
      SumIsPositive(weights[..n]);
      assert forall i :: 0 <= i < n ==> weights[..n][i] == weights[i];
      if Sum(weights[..n]) > 0 {
        var i :| 0 <= i < n && weights[..n][i] > 0;
        assert weights[i] > 0;
      }
    }
  }

  /** The saturated draw, for every fleet and under every fallback tier: each runner is chosen
      by exactly its share of the draws, and each draw chooses exactly one runner. */
  lemma WeightedDrawIsExact(fleet: Fleet, i: nat)
    requires i < |fleet|
    ensures var weights := DrawWeights(fleet);
      && 0 < Sum(weights)
      && Draws(weights, i, Sum(weights)) == Share(fleet, i)
      && forall d: nat :: d < Sum(weights) ==> SelectsExactlyOne(weights, d)
  {
    var weights := DrawWeights(fleet);
    DrawWeightsArePositive(fleet);
    DrawIsExact(weights, i);
    SumIsPositive(OnlineWeights(fleet));
    SumIsPositive(RegisteredWeights(fleet));
    assert forall j :: 0 <= j < |fleet| ==> OnlineWeights(fleet)[j] == fleet[j].online;
    assert forall j :: 0 <= j < |fleet| ==> RegisteredWeights(fleet)[j] == fleet[j].registered;
    forall d: nat | d < Sum(weights) ensures SelectsExactlyOne(weights, d) {
      DrawIsTotal(weights, d);
      forall j: nat, k: nat | FallsOn(weights, d, j) && FallsOn(weights, d, k) ensures j == k {
        FallsOnOne(weights, d, j, k);
      }
    }
  }

  // ----- selection -----

  /** What a selection answers for a draw `target`: the first in rank while somebody has room,
      the runner the draw falls on when nobody has. */
  ghost predicate Selects(fleet: Fleet, target: int, d: Decision) {
    if SomebodyHasRoom(fleet) then d.Placed? && d.regime == BySpare && IsFirst(fleet, d.runner)
    else d.Placed? && d.regime == Saturated && FallsOn(DrawWeights(fleet), target, d.runner)
  }

  method SelectRunner(fleet: Fleet, target: nat) returns (d: Decision)
    requires fleet != [] && target < Sum(DrawWeights(fleet))
    ensures Selects(fleet, target, d)
    ensures d.Placed? && d.runner < |fleet|
    ensures if exists i :: 0 <= i < |fleet| && fleet[i].queued + fleet[i].running < fleet[i].online
            then d.regime == BySpare && IsBest(fleet, d.runner) else d.regime == Saturated
  {
    var spare: seq<nat> := [];
    for i := 0 to |fleet|
      invariant forall j :: j in spare <==> 0 <= j < i && fleet[j].HasRoom()
    {
      if fleet[i].HasRoom() {
        spare := spare + [i];
      }
    }
    if |spare| > 0 {
      assert forall m :: 0 <= m < |spare| ==> spare[m] in spare;
      var first := FirstByRank(fleet, spare);
      assert fleet[first].HasRoom();
      FirstIsBest(fleet, first);
      return Placed(first, BySpare);
    }
    assert forall i :: 0 <= i < |fleet| && fleet[i].HasRoom() ==> i in spare;
    var weights, total := WeightsForDraw(fleet);
    var index := Draw(weights, target);
    return Placed(index, Saturated);
  }

  /** The weights of the saturated regime and their total, accumulated tier by tier. */
  method WeightsForDraw(fleet: Fleet) returns (weights: seq<nat>, total: nat)
    ensures weights == DrawWeights(fleet) && total == Sum(weights)
  {
    weights, total := [], 0;
    for i := 0 to |fleet|
      invariant weights == OnlineWeights(fleet)[..i] && total == Sum(weights)
    {
      weights := weights + [fleet[i].online];
      assert weights[..i] == OnlineWeights(fleet)[..i];
      total := total + fleet[i].online;
    }
    assert weights == OnlineWeights(fleet);
    if total == 0 {
      weights := [];
      for i := 0 to |fleet|
        invariant weights == RegisteredWeights(fleet)[..i] && total == Sum(weights)
      {
        weights := weights + [fleet[i].registered];
        assert weights[..i] == RegisteredWeights(fleet)[..i];
        total := total + fleet[i].registered;
      }
      assert weights == RegisteredWeights(fleet);
      if total == 0 {
        weights, total := EvenWeights(|fleet|), |fleet|;
        EvenSum(|fleet|);
      }
    }
  }

  /** The head of the stable sort: the one that ranks before all the rest. */
  method FirstByRank(fleet: Fleet, spare: seq<nat>) returns (first: nat)
    requires spare != [] && forall m :: 0 <= m < |spare| ==> spare[m] < |fleet|
    ensures first in spare && first < |fleet|
    ensures forall m :: 0 <= m < |spare| && spare[m] != first ==> Before(RankOf(fleet, first), RankOf(fleet, spare[m]))
  {
    first := spare[0];
    for n := 1 to |spare|
      invariant first in spare && first < |fleet|
      invariant forall m :: 0 <= m < n && spare[m] != first ==> Before(RankOf(fleet, first), RankOf(fleet, spare[m]))
    {
      hide RankOf;
      var next := spare[n];
      if next != first {
        RanksAreDistinct(fleet, first, next);
        BeforeIsTotal(RankOf(fleet, first), RankOf(fleet, next));
        if Before(RankOf(fleet, next), RankOf(fleet, first)) {
          forall m | 0 <= m < n && spare[m] != next ensures Before(RankOf(fleet, next), RankOf(fleet, spare[m])) {
            if spare[m] != first {
              BeforeIsTransitive(RankOf(fleet, next), RankOf(fleet, first), RankOf(fleet, spare[m]));
            }
          }
          first := next;
        }
      }
    }
  }

  lemma RanksAreDistinct(fleet: Fleet, i: nat, j: nat)
    requires i < |fleet| && j < |fleet| && i != j
    ensures RankOf(fleet, i).runner != RankOf(fleet, j).runner
  {
  }

  /** Among runners that may all have the run: nothing to decide, no counts to decide on, or a
      ranked selection. */
  method Choose(fleet: Fleet, measured: bool, target: nat) returns (d: Decision)
    requires fleet != [] && (|fleet| > 1 && measured ==> target < Sum(DrawWeights(fleet)))
    ensures d.Placed? && d.runner < |fleet|
    ensures |fleet| == 1 ==> d == Placed(0, SoleCandidate)
    ensures |fleet| > 1 && !measured ==> d == Placed(0, Unmeasured)
    ensures |fleet| > 1 && measured ==> Selects(fleet, target, d) && (d.regime == BySpare || d.regime == Saturated)
    ensures |fleet| > 1 && measured && d.regime == BySpare ==> IsBest(fleet, d.runner)
  {
    if |fleet| == 1 {
      return Placed(0, SoleCandidate);
    } else if !measured {
      return Placed(0, Unmeasured);
    }
    d := SelectRunner(fleet, target);
  }

  /** A run is placed if and only if some active runner matches, and stranded with the reason
      otherwise. */
  method Place(listing: Listing, measured: bool, target: nat) returns (d: Decision)
    requires listing.Some? && |Eligible(listing.value)| > 1 && measured ==> target < Sum(DrawWeights(Eligible(listing.value)))
    ensures if Refused(listing).Some? then d == Unplaced(Refused(listing).value) else d.Placed?
    ensures d.Placed? ==> var fleet := Eligible(listing.value);
      && d.runner < |fleet|
      && (|fleet| == 1 ==> d == Placed(0, SoleCandidate))
      && (|fleet| > 1 && !measured ==> d == Placed(0, Unmeasured))
      && (|fleet| > 1 && measured ==> Selects(fleet, target, d))
  {
    if listing.None? {
      return Unplaced(InvalidRequirements);
    }
    var eligible := Candidates(listing.value);
    EligibleIffActive(listing.value);
    if |eligible| == 0 {
      return Unplaced(NoEligibleRunner);
    }
    d := Choose(eligible, measured, target);
  }

  // ----- bursts -----

  function Room(c: Capacity): nat {
    if c.HasRoom() then c.Spare() else 0
  }

  /** The room of the runners that have some; those that are behind cancel nothing out. */
  function SpareCapacity(fleet: Fleet): nat {
    if fleet == [] then 0 else SpareCapacity(fleet[..|fleet| - 1]) + Room(fleet[|fleet| - 1])
  }

  datatype Totals = Totals(online: nat, registered: nat, ready: nat, queued: nat, running: nat, spare: nat)

  const NOTHING := Totals(0, 0, 0, 0, 0, 0)

  datatype Picture = Picture(matching: nat, eligible: nat, totals: Totals, schedulable: bool, reason: Option<Reason>)

  lemma EmptySum(values: seq<nat>)
    ensures Sum(values[..0]) == 0
  {
  }

  /** One more runner, one more term. */
  lemma SumGrows(values: seq<nat>, i: nat)
    requires i < |values|
    ensures Sum(values[..i + 1]) == Sum(values[..i]) + values[i]
  {
    assert values[..i + 1][..i] == values[..i];
  }

  ghost predicate TotalsOf(fleet: Fleet, totals: Totals) {
    && totals.spare == SpareCapacity(fleet)
    && totals.spare == Sum(Each(fleet, (c: Capacity) => if c.queued + c.running < c.online then c.online - c.queued - c.running else 0))
    && totals.online == Sum(Each(fleet, (c: Capacity) => c.online))
    && totals.registered == Sum(Each(fleet, (c: Capacity) => c.registered))
    && totals.ready == Sum(Each(fleet, (c: Capacity) => c.ready))
    && totals.queued == Sum(Each(fleet, (c: Capacity) => c.queued))
    && totals.running == Sum(Each(fleet, (c: Capacity) => c.running))
  }

  /** What a preview reports: it refuses exactly what placement refuses, in the same words, and
      counts what the eligible runners have between them. */
  method Preview(listing: Listing) returns (picture: Picture)
    ensures picture.reason == Refused(listing) && (picture.schedulable <==> Refused(listing).None?)
    ensures listing.None? ==> picture.matching == 0 == picture.eligible && picture.totals == NOTHING
    ensures listing.Some? ==>
      && picture.matching == |listing.value| && picture.eligible == |Eligible(listing.value)|
      && TotalsOf(Eligible(listing.value), picture.totals)
  {
    if listing.None? {
      return Picture(0, 0, NOTHING, false, Some(InvalidRequirements));
    }
    var eligible := Candidates(listing.value);
    EligibleIffActive(listing.value);
    var totals := CountTotals(eligible);
    var schedulable := |eligible| > 0;
    return Picture(|listing.value|, |eligible|, totals, schedulable, if schedulable then None else Some(NoEligibleRunner));
  }

  method CountTotals(fleet: Fleet) returns (totals: Totals)
    ensures TotalsOf(fleet, totals)
  {
    hide Sum;
    var online, registered := Each(fleet, (c: Capacity) => c.online), Each(fleet, (c: Capacity) => c.registered);
    var ready, queued := Each(fleet, (c: Capacity) => c.ready), Each(fleet, (c: Capacity) => c.queued);
    var running := Each(fleet, (c: Capacity) => c.running);
    var room := Each(fleet, (c: Capacity) => if c.queued + c.running < c.online then c.online - c.queued - c.running else 0);
    EmptySum(room);
    totals := NOTHING;
    EmptySum(online);
    EmptySum(registered);
    EmptySum(ready);
    EmptySum(queued);
    EmptySum(running);
    for i := 0 to |fleet|
      invariant totals.spare == SpareCapacity(fleet[..i]) == Sum(room[..i])
      invariant totals.online == Sum(online[..i]) && totals.registered == Sum(registered[..i]) && totals.ready == Sum(ready[..i])
      invariant totals.queued == Sum(queued[..i]) && totals.running == Sum(running[..i])
    {
      var c := fleet[i];
      assert fleet[..i + 1][..i] == fleet[..i];
      SumGrows(online, i);
      SumGrows(registered, i);
      SumGrows(ready, i);
      SumGrows(room, i);
      SumGrows(queued, i);
      SumGrows(running, i);
      totals := Totals(totals.online + c.online, totals.registered + c.registered, totals.ready + c.ready,
                       totals.queued + c.queued, totals.running + c.running,
                       if c.Spare() > 0 then totals.spare + c.Spare() else totals.spare);
    }
    assert fleet[..|fleet|] == fleet && online[..|fleet|] == online && registered[..|fleet|] == registered;
    assert room[..|fleet|] == room && ready[..|fleet|] == ready && queued[..|fleet|] == queued && running[..|fleet|] == running;
    CapacityMeansRoom(fleet);
  }

  /** A run placed on a runner is queued there at once. */
  function Enqueue(fleet: Fleet, i: nat): Fleet
    requires i < |fleet|
  {
    fleet[i := fleet[i].(queued := fleet[i].queued + 1)]
  }

  lemma {:induction false} CapacityMeansRoom(fleet: Fleet)
    ensures SpareCapacity(fleet) > 0 <==> SomebodyHasRoom(fleet)
  {
    if fleet != [] {
      var n := |fleet| - 1;
      var front := fleet[..n];
      CapacityMeansRoom(front);
      if fleet[n].HasRoom() {
        assert SomebodyHasRoom(fleet);
      } else if i :| 0 <= i < |front| && front[i].HasRoom() {
        assert fleet[i].HasRoom();
      }
    }
  }

  /** Placing on a runner with room uses up exactly one unit of the fleet's spare capacity. */
  lemma {:induction false} EnqueueConserves(fleet: Fleet, i: nat)
    requires i < |fleet| && fleet[i].HasRoom()
    ensures SpareCapacity(Enqueue(fleet, i)) == SpareCapacity(fleet) - 1
  {
    var n := |fleet| - 1;
    if i < n {
      EnqueueConserves(fleet[..n], i);
      assert Enqueue(fleet, i)[..n] == Enqueue(fleet[..n], i);
    } else {
      assert Enqueue(fleet, i)[..n] == fleet[..n];
    }
  }

  /** One placement of a burst: a selection, immediately queued on the runner selected. */
  ghost predicate PlacedOnce(before: Fleet, target: nat, d: Decision, after: Fleet) {
    && Selects(before, target, d) && d.Placed? && d.runner < |before|
    && after == Enqueue(before, d.runner)
  }

  /** One placement after another, nothing else happening in between. */
  ghost predicate Burst(fleets: seq<Fleet>, targets: seq<nat>, choices: seq<Decision>) {
    && |fleets| == |choices| + 1 && |targets| == |choices|
    && forall k {:trigger choices[k]} :: 0 <= k < |choices| ==> PlacedOnce(fleets[k], targets[k], choices[k], fleets[k + 1])
  }

  ghost predicate Received(choices: seq<Decision>, k: nat, r: nat) {
    exists j :: 0 <= j < k && j < |choices| && choices[j].Placed? && choices[j].runner == r
  }

  /** No runner has more than one spare above any runner the first `k` placements used. */
  ghost predicate Balanced(now: Fleet, choices: seq<Decision>, k: nat) {
    forall r: nat, o: nat :: Received(choices, k, r) && r < |now| && o < |now| ==> now[o].Spare() <= now[r].Spare() + 1
  }

  /** What `k` placements have made of the fleet `start`. */
  ghost predicate Filling(start: Fleet, now: Fleet, choices: seq<Decision>, k: nat) {
    && |now| == |start|
    && SpareCapacity(now) == SpareCapacity(start) - k
    && (forall i :: 0 <= i < |start| ==> if start[i].HasRoom() then 0 <= now[i].Spare() else now[i] == start[i])
    && Balanced(now, choices, k)
  }

  /** While there is capacity left, a placement goes to a runner with room and with the most
      spare, and uses one unit of the fleet's capacity. */
  lemma ChosenHasMostSpare(before: Fleet, target: nat, d: Decision, after: Fleet)
    requires PlacedOnce(before, target, d, after) && SpareCapacity(before) > 0
    ensures d.regime == BySpare && before[d.runner].HasRoom()
    ensures SpareCapacity(after) == SpareCapacity(before) - 1
    ensures forall o :: 0 <= o < |before| ==> before[o].Spare() <= before[d.runner].Spare()
  {
    hide Sum, DrawWeights, SpareCapacity;
    CapacityMeansRoom(before);
    EnqueueConserves(before, d.runner);
    forall o: nat | o < |before| ensures before[o].Spare() <= before[d.runner].Spare() {
      assert o != d.runner && before[o].HasRoom() ==> Before(RankOf(before, d.runner), RankOf(before, o));
    }
  }

  /** What one more run queued on a runner with the most spare leaves balanced. */
  lemma BalanceKept(before: Fleet, after: Fleet, choices: seq<Decision>, k: nat)
    requires k < |choices| && choices[k].Placed? && choices[k].runner < |before| && after == Enqueue(before, choices[k].runner)
    requires forall o :: 0 <= o < |before| ==> before[o].Spare() <= before[choices[k].runner].Spare()
    requires Balanced(before, choices, k)
    ensures Balanced(after, choices, k + 1)
  {
    var c := choices[k].runner;
    forall r: nat, o: nat | Received(choices, k + 1, r) && r < |after| && o < |after|
      ensures after[o].Spare() <= after[r].Spare() + 1
    {
      assert r == c || Received(choices, k, r);
    }
  }

  /** One more placement, while there is capacity left. */
  lemma FillingStep(start: Fleet, before: Fleet, after: Fleet, choices: seq<Decision>, k: nat, target: nat)
    requires k < |choices| && Filling(start, before, choices, k) && k < SpareCapacity(start)
    requires PlacedOnce(before, target, choices[k], after)
    ensures Filling(start, after, choices, k + 1) && choices[k].regime == BySpare
  {
    hide Balanced, SpareCapacity, Selects;
    ChosenHasMostSpare(before, target, choices[k], after);
    BalanceKept(before, after, choices, k);
  }

  lemma {:induction false} BurstFills(fleets: seq<Fleet>, targets: seq<nat>, choices: seq<Decision>, k: nat)
    requires Burst(fleets, targets, choices) && k <= |choices| && k <= SpareCapacity(fleets[0])
    ensures Filling(fleets[0], fleets[k], choices, k)
    ensures forall j :: 0 <= j < k ==> choices[j].Placed? && choices[j].regime == BySpare
  {
    if k > 0 {
      BurstFills(fleets, targets, choices, k - 1);
      FillingStep(fleets[0], fleets[k - 1], fleets[k], choices, k - 1, targets[k - 1]);
    }
  }

  /** A burst of exactly the fleet's spare capacity is placed entirely by spare, oversubscribes
      nobody at any moment, fills every runner that had room to exactly zero, leaves the others
      untouched, and keeps the spares of the runners it used within one of each other; the
      placement after it is the first saturated one. */
  lemma BurstFillsTheFleet(fleets: seq<Fleet>, targets: seq<nat>, choices: seq<Decision>)
    requires Burst(fleets, targets, choices) && |choices| == SpareCapacity(fleets[0])
    ensures forall k :: 0 <= k < |choices| ==> choices[k].Placed? && choices[k].regime == BySpare
    ensures forall k, i :: 0 <= k < |fleets| && 0 <= i < |fleets[0]| && fleets[0][i].HasRoom() ==>
              |fleets[k]| == |fleets[0]| && 0 <= fleets[k][i].Spare()
    ensures |fleets[|choices|]| == |fleets[0]|
    ensures forall i :: 0 <= i < |fleets[0]| ==>
              if fleets[0][i].HasRoom() then fleets[|choices|][i].Spare() == 0 else fleets[|choices|][i] == fleets[0][i]
    ensures forall k: nat, r: nat, o: nat ::
              (k < |fleets| && Received(choices, k, r) && Received(choices, k, o) && r < |fleets[k]| && o < |fleets[k]|) ==>
              -1 <= fleets[k][r].Spare() - fleets[k][o].Spare() <= 1
    ensures forall target, d :: Selects(fleets[|choices|], target, d) ==> d.Placed? && d.regime == Saturated
  {
    var n := |choices|;
    forall k | 0 <= k < |fleets| ensures Filling(fleets[0], fleets[k], choices, k) {
      BurstFills(fleets, targets, choices, k);
    }
    BurstFills(fleets, targets, choices, n);
    CapacityMeansRoom(fleets[n]);
    forall i | 0 <= i < |fleets[0]|
      ensures if fleets[0][i].HasRoom() then fleets[n][i].Spare() == 0 else fleets[n][i] == fleets[0][i]
    {
      assert !fleets[n][i].HasRoom();
    }
  }
}
