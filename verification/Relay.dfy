/**
 The relay: leasing a batch of outbox rows, publishing each, and recording every outcome
 against its row, with the retry delay doubling up to a limit. Durations are 64-bit.
 */
module Relay {
  import opened Domain
  import opened Options
  import opened Tables
  import S = Store
  import C = Records

  // ----- the retry delay -----

  const PERMANENT_DISPATCH_BACKOFF: int := 3600 * SECOND

  const INT64_LIMIT: int := 0x8000_0000_0000_0000

  /** The sum or product `x` as a 64-bit signed integer keeps it. */
  function Wrapped(x: int): (y: int)
    ensures -INT64_LIMIT <= y < INT64_LIMIT
    ensures -INT64_LIMIT <= x < INT64_LIMIT ==> y == x
  {
    (x + INT64_LIMIT) % (2 * INT64_LIMIT) - INT64_LIMIT
  }

  function Pow2(n: nat): (p: nat)
    ensures p > 0
  {
    if n == 0 then 1 else 2 * Pow2(n - 1)
  }

  function Min(a: int, b: int): int {
    if a <= b then a else b
  }

  /** Exponential in the number of attempts already counted, up to a limit. */
  function Delay(base: int, limit: int, attempts: nat): int
    requires attempts > 0
  {
    Min(limit, base * Pow2(attempts - 1))
  }

  lemma {:induction false} Pow2Grows(m: nat, n: nat)
    requires m <= n
    ensures Pow2(m) <= Pow2(n)
  {
    if m < n {
      Pow2Grows(m, n - 1);
    }
  }

  /** Doubling in 64 bits, for so many steps or until the limit is reached. */
  function Doubled(backoff: int, limit: int, steps: nat): int
    decreases steps
  {
    if steps == 0 || backoff >= limit then Min(limit, backoff)
    else Doubled(Wrapped(backoff * 2), limit, steps - 1)
  }

  function Backoff(base: int, limit: int, attempts: int): int {
    Doubled(base, limit, if attempts <= 1 then 0 else attempts - 1)
  }

  /** The first failure waits the base delay; each further one doubles it, up to the limit. */
  method BackoffFor(base: int, limit: int, attempts: int, permanent: bool) returns (delay: int)
    ensures delay == if permanent then PERMANENT_DISPATCH_BACKOFF else Backoff(base, limit, attempts)
    ensures !permanent && attempts >= 1 && 0 < base && NeverOverflows(base, limit) ==> delay == Delay(base, limit, attempts)
  {
    if permanent {
      return PERMANENT_DISPATCH_BACKOFF;
    }
    var backoff := base;
    var attempt := 1;
    while attempt < attempts && backoff < limit
      invariant attempts >= 1 ==> attempt <= attempts
      invariant attempts < 1 ==> attempt == 1 && backoff == base
      invariant Backoff(base, limit, attempts) == Doubled(backoff, limit, if attempts <= attempt then 0 else attempts - attempt)
    {
      backoff := Wrapped(backoff * 2);
      attempt := attempt + 1;
    }
    if attempts >= 1 && 0 < base && NeverOverflows(base, limit) {
      BackoffIsDelay(base, limit, attempts);
    }
    if backoff > limit {
      return limit;
    }
    return backoff;
  }

  // ----- when the delay is exact -----

  /** No doubling step taken below the limit reaches 2^63. */
  ghost predicate NeverOverflows(base: int, limit: int) {
    forall k: nat :: SafeStep(base, limit, k)
  }

  predicate SafeStep(base: int, limit: int, k: nat) {
    base * Pow2(k) < limit ==> 2 * (base * Pow2(k)) < INT64_LIMIT
  }

  lemma NextPower(base: int, k: nat)
    ensures base * Pow2(k + 1) == 2 * (base * Pow2(k))
  {
    assert Pow2(k + 1) == 2 * Pow2(k);
  }

  lemma PowersGrow(base: int, j: nat, k: nat)
    requires 0 < base && j <= k
    ensures base * Pow2(j) <= base * Pow2(k)
  {
    Pow2Grows(j, k);
    MulGrows(base, Pow2(j), Pow2(k));
  }

  lemma {:induction false} SafeStepsAreExact(base: int, limit: int, j: nat, steps: nat)
    requires 0 < base && forall k :: j <= k < j + steps ==> SafeStep(base, limit, k)
    ensures Doubled(base * Pow2(j), limit, steps) == Min(limit, base * Pow2(j + steps))
    decreases steps
  {
    PowersGrow(base, j, j + steps);
    if steps > 0 && base * Pow2(j) < limit {
      assert SafeStep(base, limit, j);
      NextPower(base, j);
      MulGrows(base, 0, Pow2(j));
      SafeStepsAreExact(base, limit, j + 1, steps - 1);
    }
  }

  lemma BackoffIsDelay(base: int, limit: int, attempts: nat)
    requires 0 < base && attempts >= 1 && forall k :: 0 <= k < attempts - 1 ==> SafeStep(base, limit, k)
    ensures Backoff(base, limit, attempts) == Delay(base, limit, attempts)
  {
    SafeStepsAreExact(base, limit, 0, attempts - 1);
  }

  /** Below the limit, doubling runs on until the first unsafe step. */
  lemma {:induction false} RunsTo(base: int, limit: int, j: nat, k: nat)
    requires 0 < base && j <= k && base * Pow2(k) < limit < INT64_LIMIT
    ensures Doubled(base * Pow2(j), limit, k + 1 - j) == Doubled(base * Pow2(k), limit, 1)
    decreases k - j
  {
    if j < k {
      PowersGrow(base, j, k);
      PowersGrow(base, j + 1, k);
      NextPower(base, j);
      MulGrows(base, 0, Pow2(j));
      RunsTo(base, limit, j + 1, k);
    }
  }

  /** An unsafe step makes the delay after it negative. */
  lemma UnsafeStepFails(base: int, limit: int, k: nat)
    requires 0 < base && limit < INT64_LIMIT && !SafeStep(base, limit, k)
    ensures Backoff(base, limit, k + 2) < 0 < Delay(base, limit, k + 2)
  {
    RunsTo(base, limit, 0, k);
    NextPower(base, k);
    MulGrows(base, 0, Pow2(k));
  }

  lemma {:induction false} DoubledInRange(backoff: int, limit: int, steps: nat)
    requires -INT64_LIMIT <= backoff && -INT64_LIMIT <= limit
    ensures -INT64_LIMIT <= Doubled(backoff, limit, steps)
    decreases steps
  {
    if steps > 0 && backoff < limit {
      DoubledInRange(Wrapped(backoff * 2), limit, steps - 1);
    }
  }

  lemma {:induction false} Pow2Adds(a: nat, b: nat)
    ensures Pow2(a + b) == Pow2(a) * Pow2(b)
  {
    if b > 0 {
      Pow2Adds(a, b - 1);
      assert Pow2(a + b) == 2 * Pow2(a + (b - 1));
    }
  }

  lemma Pow2Of64()
    ensures Pow2(64) == 2 * INT64_LIMIT
  {
    assert Pow2(2) == 4 && Pow2(4) == 16;
    Pow2Adds(4, 4);
    Pow2Adds(8, 8);
    Pow2Adds(16, 16);
    Pow2Adds(32, 32);
  }

  /** A negative base underflows sooner or later. */
  lemma NegativeBaseFails(base: int, limit: int)
    requires -INT64_LIMIT <= base < 0 && -INT64_LIMIT <= limit
    ensures Backoff(base, limit, 65) != Delay(base, limit, 65)
  {
    Pow2Of64();
    DoubledInRange(base, limit, 64);
  }

  lemma {:induction false} ZeroStays(limit: int, steps: nat)
    ensures Doubled(0, limit, steps) == Min(limit, 0)
    decreases steps
  {
    if steps > 0 && 0 < limit {
      ZeroStays(limit, steps - 1);
    }
  }

  ghost predicate AlwaysExact(base: int, limit: int) {
    forall n: nat :: n >= 1 ==> Backoff(base, limit, n) == Delay(base, limit, n)
  }

  /** For all 64-bit settings, the delay is min(limit, base·2^(n−1)) at every attempt if and only if
      the base is zero, or positive with no doubling below the limit reaching 2^63. */
  lemma ExactIff(base: int, limit: int)
    requires -INT64_LIMIT <= base < INT64_LIMIT && -INT64_LIMIT <= limit < INT64_LIMIT
    ensures AlwaysExact(base, limit) <==> base == 0 || (0 < base && NeverOverflows(base, limit))
  {
    if base < 0 {
      NegativeBaseFails(base, limit);
    } else if base == 0 {
      forall n: nat | n >= 1 ensures Backoff(base, limit, n) == Delay(base, limit, n) {
        ZeroStays(limit, n - 1);
      }
    } else {
      if NeverOverflows(base, limit) {
        forall n: nat | n >= 1 ensures Backoff(base, limit, n) == Delay(base, limit, n) {
          BackoffIsDelay(base, limit, n);
        }
      } else {
        var k: nat :| !SafeStep(base, limit, k);
        UnsafeStepFails(base, limit, k);
      }
    }
  }

  /** So a limit of up to 2^62, about 146 years of nanoseconds, is safe whatever the base. */
  lemma SmallLimitsAreExact(base: int, limit: int)
    requires 0 <= base < INT64_LIMIT && -INT64_LIMIT <= limit <= INT64_LIMIT / 2
    ensures AlwaysExact(base, limit)
  {
    forall k: nat ensures SafeStep(base, limit, k) {}
    ExactIff(base, limit);
  }

  /** An input at which the delay is wrong: the second failure waits minus 2^63. */
  lemma LargeLimitFails()
    ensures Backoff(INT64_LIMIT / 2, INT64_LIMIT - 1, 2) == -INT64_LIMIT
    ensures Delay(INT64_LIMIT / 2, INT64_LIMIT - 1, 2) == INT64_LIMIT - 1
  {
    assert Pow2(1) == 2;
    assert Doubled(-INT64_LIMIT, INT64_LIMIT - 1, 0) == -INT64_LIMIT;
  }

  /** For a single attempt the condition is not necessary: here the first doubling overflows, and
      the second brings the delay back to the limit. That is why it is stated over all attempts. */
  lemma OverflowMayCancel()
    ensures var base, limit := INT64_LIMIT / 2 + INT64_LIMIT / 4 - 1, INT64_LIMIT - 4;
      !SafeStep(base, limit, 0) && Backoff(base, limit, 3) == Delay(base, limit, 3) == limit
  {
    var base, limit := INT64_LIMIT / 2 + INT64_LIMIT / 4 - 1, INT64_LIMIT - 4;
    assert Pow2(0) == 1 && Pow2(2) == 4;
    assert Wrapped(base * 2) == -INT64_LIMIT / 2 - 2 && Wrapped((-INT64_LIMIT / 2 - 2) * 2) == limit;
    assert Doubled(limit, limit, 0) == limit;
    assert Doubled(-INT64_LIMIT / 2 - 2, limit, 1) == limit;
  }

  lemma MulGrows(x: int, a: int, b: int)
    requires x > 0 && a <= b
    ensures x * a <= x * b
  {
  }

  /** From one failure to the next the delay never shrinks and at most doubles; it reaches the
      limit and stays there. */
  lemma DelayClimbs(base: int, limit: int, n: nat)
    requires 0 < base <= limit && n > 0
    ensures base <= Delay(base, limit, n) <= Delay(base, limit, n + 1) <= 2 * Delay(base, limit, n)
    ensures Delay(base, limit, n + 1) <= limit
    ensures Delay(base, limit, n) == limit ==> Delay(base, limit, n + 1) == limit
  {
    assert base * Pow2(n) == 2 * (base * Pow2(n - 1));
    MulGrows(base, 1, Pow2(n - 1));
  }

  lemma DelayIsPositive(base: int, limit: int, n: nat)
    requires 0 < base && 0 < limit && n > 0
    ensures Delay(base, limit, n) > 0
  {
    MulGrows(base, 1, Pow2(n - 1));
  }

  lemma {:induction false} DelayReachesLimit(base: int, limit: int, n: nat)
    requires 0 < base && limit <= n && n > 0
    ensures Delay(base, limit, n) == limit
  {
    Pow2Exceeds(n - 1);
    MulGrows(Pow2(n - 1), 1, base);
  }

  lemma {:induction false} Pow2Exceeds(n: nat)
    ensures n < Pow2(n)
  {
    if n > 0 {
      Pow2Exceeds(n - 1);
    }
  }

  // ----- leasing -----

  /** What the query for work answers: rows that are due, earliest first, none passed over for
      a later one, and all of them when they fit the batch. */
  ghost predicate DueRows(rows: map<EventId, Row>, now: nat, limit: int, due: seq<EventId>) {
    && |due| <= limit
    && (forall i :: 0 <= i < |due| ==> due[i] in rows && Due(rows[due[i]], now))
    && (forall i, j :: 0 <= i < j < |due| ==> due[i] != due[j] && rows[due[i]].notBefore <= rows[due[j]].notBefore)
    && (forall e :: e in rows && Due(rows[e], now) && e !in due ==>
          |due| == limit && forall i :: 0 <= i < |due| ==> rows[due[i]].notBefore <= rows[e].notBefore)
  }

  /** A query finds a row exactly when it is still to be published, not held back and in nobody's
      lease, as far as the batch reaches, and the earlier due the sooner. */
  lemma FoundWhenDue(rows: map<EventId, Row>, now: nat, limit: int, due: seq<EventId>, e: EventId)
    requires DueRows(rows, now, limit, due) && e in rows
    ensures e in due ==> C.MayBeLeased(rows[e], now)
    ensures C.MayBeLeased(rows[e], now) && |due| < limit ==> e in due
    ensures C.MayBeLeased(rows[e], now) && e !in due ==> forall d :: d in due ==> d in rows && rows[d].notBefore <= rows[e].notBefore
  {
  }

  lemma DueIsDistinct(rows: map<EventId, Row>, now: nat, limit: int, due: seq<EventId>)
    requires DueRows(rows, now, limit, due)
    ensures forall i, j :: 0 <= i < j < |due| ==> due[i] != due[j]
    ensures forall i :: 0 <= i < |due| ==> due[i] in rows
  {
  }

  lemma LeasedRows(rows: map<EventId, Row>, due: seq<EventId>, relay: string, expiry: nat, i: nat)
    requires i < |due| && due[i] in rows && rows[due[i]].event == due[i]
    ensures var after := ClaimRows(rows, SetOf(due), relay, expiry);
      && due[i] in after && after[due[i]] == Leased(rows[due[i]], relay, expiry)
      && after[due[i]].event == due[i] && after[due[i]].attempts > 0
  {
  }

  lemma AllLeased(rows: map<EventId, Row>, due: seq<EventId>, relay: string, expiry: nat)
    requires forall e :: e in rows ==> rows[e].event == e
    requires forall i :: 0 <= i < |due| ==> due[i] in rows
    ensures var after := ClaimRows(rows, SetOf(due), relay, expiry);
      forall i :: 0 <= i < |due| ==> after[due[i]] == Leased(rows[due[i]], relay, expiry) && after[due[i]].event == due[i]
  {
    hide Leased, ClaimRows, SetOf;
    forall i: nat | i < |due|
      ensures var after := ClaimRows(rows, SetOf(due), relay, expiry);
        due[i] in after && after[due[i]] == Leased(rows[due[i]], relay, expiry) && after[due[i]].event == due[i]
    {
      LeasedRows(rows, due, relay, expiry, i);
    }
  }

  lemma RowsNotLeased(rows: map<EventId, Row>, due: seq<EventId>, relay: string, expiry: nat)
    ensures var after := ClaimRows(rows, SetOf(due), relay, expiry);
      after.Keys == rows.Keys && forall e :: e in rows && e !in due ==> after[e] == rows[e]
  {
  }

  function SetOf(due: seq<EventId>): set<EventId> {
    set i | 0 <= i < |due| :: due[i]
  }

  // ----- one round -----

  /** What came of one publication: stored by the broker and marked, stored but not marked
      because the bookkeeping failed, refused for now, or impossible for ever. */
  datatype Outcome = Stored(receipt: nat) | StoredUnmarked | Refused | Impossible

  datatype Settings = Settings(base: int, limit: int)

  function RetryDelay(settings: Settings, row: Row, outcome: Outcome): int {
    if outcome.Impossible? then PERMANENT_DISPATCH_BACKOFF else Backoff(settings.base, settings.limit, row.attempts)
  }

  /** A leased row after its publication. */
  function Settled(row: Row, outcome: Outcome, settings: Settings, now: nat): Row {
    match outcome
    case Stored(receipt) => Published(row, now, receipt)
    case _ => FailedRow(row, now + RetryDelay(settings, row, outcome))
  }

  class Relay {
    const id: string
    const store: S.Store
    const settings: Settings

    constructor (id: string, store: S.Store, settings: Settings)
      ensures this.id == id && this.store == store && this.settings == settings
    {
      this.id, this.store, this.settings := id, store, settings;
    }

    /** Leases the rows the query found. The attempt is counted here, before anything is sent. */
    method Claim(due: seq<EventId>, limit: int, lease: nat, now: nat) returns (claimed: seq<Row>)
      requires DueRows(store.outbox, now, limit, due)
      modifies store`outbox
      ensures store.outbox == ClaimRows(old(store.outbox), SetOf(due), id, now + lease)
      ensures |claimed| == |due| && forall i :: 0 <= i < |due| ==>
        due[i] in store.outbox && claimed[i] == store.outbox[due[i]]
      ensures forall i :: 0 <= i < |due| ==> C.RowLeased(old(store.outbox)[due[i]], claimed[i], id, now + lease)
      ensures store.outbox.Keys == old(store.outbox).Keys
      ensures forall e :: e in store.outbox && e !in due ==> store.outbox[e] == old(store.outbox)[e]
    {
      if limit <= 0 || |due| == 0 {
        assert SetOf(due) == {};
        return [];
      }
      ghost var before := store.outbox;
      var rows := store.outbox;
      store.outbox := map e | e in rows :: if e in due then rows[e].(claimedBy := id, claimExpires := Some(now + lease), attempts := rows[e].attempts + 1) else rows[e];
      claimed := [];
      for i := 0 to |due|
        invariant |claimed| == i
        invariant forall j :: 0 <= j < i ==> due[j] in before && claimed[j] == Leased(before[due[j]], id, now + lease)
      {
        var entry := rows[due[i]];
        entry := entry.(claimedBy := id);
        entry := entry.(claimExpires := Some(now + lease));
        entry := entry.(attempts := entry.attempts + 1);
        claimed := claimed + [entry];
      }
    }

    /** Publishes one leased row and records what came of it against the row. */
    method Publish(entry: Row, outcome: Outcome, now: nat) returns (published: bool)
      requires entry.event in store.outbox && store.outbox[entry.event] == entry
      modifies store`outbox
      ensures published <==> outcome.Stored?
      ensures store.outbox == old(store.outbox)[entry.event := Settled(entry, outcome, settings, now)]
    {
      if outcome.Stored? {
        var marked := store.MarkPublished(entry.event, now, outcome.receipt);
        return marked;
      }
      var backoff := BackoffFor(settings.base, settings.limit, entry.attempts, outcome.Impossible?);
      var _ := store.MarkFailed(entry.event, now + backoff);
      return false;
    }

    /** One round. Every row the query found burns exactly one attempt and ends released, either
        published or held back by its own retry delay; one failure does not stop the others; no
        other row changes. */
    method RunOnce(due: seq<EventId>, limit: int, lease: nat, outcomes: seq<Outcome>, now: nat) returns (published: nat)
      requires DueRows(store.outbox, now, limit, due) && |outcomes| == |due|
      requires forall e :: e in store.outbox ==> store.outbox[e].event == e
      modifies store`outbox
      ensures store.outbox.Keys == old(store.outbox).Keys
      ensures forall e :: e in store.outbox && e !in due ==> store.outbox[e] == old(store.outbox)[e]
      ensures forall i :: 0 <= i < |due| ==>
        && store.outbox[due[i]] == Settled(Leased(old(store.outbox)[due[i]], id, now + lease), outcomes[i], settings, now)
        && BurntOneAttempt(old(store.outbox)[due[i]], store.outbox[due[i]], outcomes[i], settings, now)
      ensures published == Successes(outcomes) == |set i | 0 <= i < |outcomes| && outcomes[i].Stored?|
    {
      hide Settled, BurntOneAttempt, DueRows, ClaimRows, Leased, SetOf;
      ghost var before := store.outbox;
      DueIsDistinct(before, now, limit, due);
      var entries := Claim(due, limit, lease, now);
      RowsNotLeased(before, due, id, now + lease);
      AllLeased(before, due, id, now + lease);
      published := 0;
      for i := 0 to |entries|
        invariant store.outbox.Keys == before.Keys
        invariant forall e :: e in before && e !in due ==> store.outbox[e] == before[e]
        invariant forall j :: i <= j < |due| ==> store.outbox[due[j]] == entries[j]
        invariant forall j :: 0 <= j < i ==> store.outbox[due[j]] == Settled(entries[j], outcomes[j], settings, now)
        invariant published == Successes(outcomes[..i])
      {
        var ok := Publish(entries[i], outcomes[i], now);
        assert outcomes[..i + 1][..i] == outcomes[..i];
        if ok {
          published := published + 1;
        }
      }
      assert outcomes[..|outcomes|] == outcomes;
      SuccessesAreStored(outcomes);
      EachBurnsOneAttempt(before, store.outbox, due, outcomes, id, now + lease, settings, now);
    }
  }

  /** One attempt more, the lease given back, and either published or held back by the delay its
      new attempt count asks for, which is positive for positive settings that never overflow. */
  ghost predicate BurntOneAttempt(before: Row, after: Row, outcome: Outcome, settings: Settings, now: nat) {
    && after.attempts == before.attempts + 1 && after.claimedBy == "" && after.claimExpires.None?
    && after.event == before.event && after.retiredAt == before.retiredAt
    && after.uid == before.uid && after.version == before.version && after.runner == before.runner
    && (if outcome.Stored? then
          after.publishedAt == Some(now) && after.publishedSeq == outcome.receipt && after.notBefore == before.notBefore
        else
          && after.publishedAt == before.publishedAt && after.publishedSeq == before.publishedSeq
          && (outcome.Impossible? ==> after.notBefore == now + PERMANENT_DISPATCH_BACKOFF)
          && (!outcome.Impossible? ==> HeldBackFor(after.notBefore - now, settings, before.attempts + 1)))
  }

  /** The delay is what doubling in 64 bits makes of the settings at this attempt: min(limit,
      base·2^(n−1)) wherever no doubling below the limit overflows, which is then positive. */
  ghost predicate HeldBackFor(delay: int, settings: Settings, attempts: nat)
    requires attempts > 0
  {
    && delay == Backoff(settings.base, settings.limit, attempts)
    && (0 < settings.base && NeverOverflows(settings.base, settings.limit) ==>
          && delay == Delay(settings.base, settings.limit, attempts)
          && (0 < settings.limit ==> delay > 0))
  }

  /** A row the broker refused is in no query's answer before its delay is over, and in every
      answer that is not cut short from then on, as long as nothing else happens to it. */
  lemma HeldBackUntil(rows: map<EventId, Row>, e: EventId, at: nat, delay: int, later: nat, limit: int, due: seq<EventId>)
    requires e in rows && C.Outstanding(rows[e]) && C.NotLeased(rows[e]) && rows[e].notBefore == at + delay
    requires DueRows(rows, later, limit, due) && |due| < limit
    ensures e in due <==> at + delay <= later
  {
    FoundWhenDue(rows, later, limit, due, e);
  }

  /** A row in a relay's lease is in no other query's answer until the lease runs out. */
  lemma LeasedUntil(rows: map<EventId, Row>, chosen: set<EventId>, relay: string, until: nat, e: EventId,
                    now: nat, limit: int, due: seq<EventId>)
    requires e in rows && e in chosen && DueRows(ClaimRows(rows, chosen, relay, until), now, limit, due)
    ensures now < until ==> e !in due
  {
    FoundWhenDue(ClaimRows(rows, chosen, relay, until), now, limit, due, e);
  }

  lemma SettlingBurnsOneAttempt(row: Row, relay: string, expiry: nat, outcome: Outcome, settings: Settings, now: nat)
    ensures BurntOneAttempt(row, Settled(Leased(row, relay, expiry), outcome, settings, now), outcome, settings, now)
  {
    if 0 < settings.base && NeverOverflows(settings.base, settings.limit) {
      BackoffIsDelay(settings.base, settings.limit, row.attempts + 1);
      if 0 < settings.limit {
        DelayIsPositive(settings.base, settings.limit, row.attempts + 1);
      }
    }
  }

  lemma EachBurnsOneAttempt(before: map<EventId, Row>, after: map<EventId, Row>, due: seq<EventId>, outcomes: seq<Outcome>,
                            relay: string, expiry: nat, settings: Settings, now: nat)
    requires |outcomes| == |due| && forall i :: 0 <= i < |due| ==> due[i] in before && due[i] in after
    requires forall i :: 0 <= i < |due| ==> after[due[i]] == Settled(Leased(before[due[i]], relay, expiry), outcomes[i], settings, now)
    ensures forall i :: 0 <= i < |due| ==> BurntOneAttempt(before[due[i]], after[due[i]], outcomes[i], settings, now)
  {
    hide Settled, Leased, BurntOneAttempt;
    forall i | 0 <= i < |due| ensures BurntOneAttempt(before[due[i]], after[due[i]], outcomes[i], settings, now) {
      SettlingBurnsOneAttempt(before[due[i]], relay, expiry, outcomes[i], settings, now);
    }
  }

  function Successes(outcomes: seq<Outcome>): nat {
    if outcomes == [] then 0
    else Successes(outcomes[..|outcomes| - 1]) + if outcomes[|outcomes| - 1].Stored? then 1 else 0
  }

  lemma {:induction false} SuccessesAreStored(outcomes: seq<Outcome>)
    ensures Successes(outcomes) == |set i | 0 <= i < |outcomes| && outcomes[i].Stored?|
  {
    var stored := set i | 0 <= i < |outcomes| && outcomes[i].Stored?;
    if outcomes != [] {
      var n := |outcomes| - 1;
      SuccessesAreStored(outcomes[..n]);
      var before := set i | 0 <= i < |outcomes[..n]| && outcomes[..n][i].Stored?;
      assert before == stored - {n};
    } else {
      assert stored == {};
    }
  }
}
