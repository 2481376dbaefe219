/** Whom a claim is granted to, and what it then writes and hands out. */
module Claims {
  import opened Domain
  import opened Options
  import opened Tables
  import Ledger
  import C = Records

  /** The run is already held through this very claim. */
  ghost predicate HeldThrough(r: Result, who: Claimant, request: ClaimRequest) {
    && r.status == Running && r.worker == who.worker && r.dispatch == request.dispatch && request.dispatch.Some?
    && (r.runner == "" || r.runner == who.runner)
    && !C.NothingToRun(r.snapshot)
  }

  /** Who is given a run, and what the record then says. */
  lemma TakeFields(r: Result, who: Claimant, request: ClaimRequest, at: nat, maximum: int)
    requires !r.snapshot.IsZero()
    ensures var v := Adjudicate(Some(r), who, request, at, maximum);
      && !v.Unschedulable? && (v.Take? <==> C.MayBeTaken(r, who, request))
      && (v.Take? ==> v.next.uid == r.uid && v.next.version == r.version && v.next.worker == who.worker
                      && v.next.dispatch == request.dispatch && C.Taken(r, Bumped(v.next), who, request, at, maximum))
  {
  }

  lemma NotPendingNotTaken(l: Ledger.State, r: Result, who: Claimant, request: ClaimRequest, at: nat)
    requires r.status != Pending
    ensures Ledger.ClaimWrite(l, Adjudicate(Some(r), who, request, at, l.cfg.maxRunDuration), Some(r), at) == l
    ensures !C.MayBeTaken(r, who, request) && !Adjudicate(Some(r), who, request, at, l.cfg.maxRunDuration).Take?
  {
  }

  lemma CapFields(r: Result, who: Claimant, dispatch: Option<EventId>)
    requires r.worker == who.worker && r.dispatch == dispatch
    ensures C.Authorises(AuthorizeRun(r, who, dispatch, r.deadline), r)
  {
  }

  lemma HeldIsReissued(r: Result, who: Claimant, request: ClaimRequest, at: nat, maximum: int)
    ensures Adjudicate(Some(r), who, request, at, maximum).Reissue? <==> HeldThrough(r, who, request)
    ensures HeldThrough(r, who, request) ==> r.status == Running && r.worker == who.worker && r.dispatch == request.dispatch
  {
  }

  lemma GrantedBy(who: Claimant, request: ClaimRequest, held: Result, v: Verdict, r: Result)
    requires held == (if v.Take? then Bumped(v.next) else r)
    requires if v.Take? then v.next.worker == who.worker && v.next.dispatch == request.dispatch else HeldThrough(r, who, request)
    ensures held.worker == who.worker && held.dispatch == request.dispatch
  {
  }

  /** What a claim decided on the record as it stands leaves, and answers. */
  ghost predicate ClaimSettles(r: Result, after: Result, answer: Ledger.Answer, who: Claimant, request: ClaimRequest, at: nat, maximum: int) {
    && (answer.Granted? <==> HeldThrough(r, who, request) || (C.MayBeTaken(r, who, request) && !C.NothingToRun(r.snapshot)))
    && (answer.Granted? && r.status == Pending ==> C.Taken(r, after, who, request, at, maximum))
    && (answer.Granted? && r.status != Pending ==> after == r)
    && (answer.Granted? ==>
          C.Authorises(answer.cap, after) && answer.cap.worker == who.worker && answer.cap.dispatch == request.dispatch)
    && (answer.Denied? ==>
          if C.MayBeTaken(r, who, request) then C.Stranded(r, after, at)
          else after == r || (r.status == Pending && C.Stranded(r, after, at)))
    && (answer.Denied? && !C.NothingToRun(r.snapshot) ==> after == r)
  }

  ghost predicate ClaimOf(l: Ledger.State, r: Result, who: Claimant, request: ClaimRequest, at: nat) {
    var after := Ledger.ClaimStep(l, who, request, Some(r), at).db.results;
    r.uid in after && ClaimSettles(r, after[r.uid], Ledger.ClaimAnswer(l, who, request, Some(r), at), who, request, at, l.cfg.maxRunDuration)
  }

  lemma ClaimOfNothing(l: Ledger.State, r: Result, who: Claimant, request: ClaimRequest, at: nat)
    requires r.uid in l.db.results && l.db.results[r.uid] == r && r.snapshot.IsZero()
    ensures ClaimOf(l, r, who, request, at)
  {
    hide C.Taken, C.Authorises, C.MayBeTaken, HeldThrough, AuthorizeRun, Adjudicate;
    ZeroIsRefused(r, who, request, at, l.cfg.maxRunDuration);
  }

  lemma ClaimOfPending(l: Ledger.State, r: Result, who: Claimant, request: ClaimRequest, at: nat)
    requires r.uid in l.db.results && l.db.results[r.uid] == r && !r.snapshot.IsZero() && r.status == Pending
    ensures ClaimOf(l, r, who, request, at)
  {
    hide C.Taken, C.Authorises, C.Stranded, C.MayBeTaken, HeldThrough, AuthorizeRun, Adjudicate;
    var v := Adjudicate(Some(r), who, request, at, l.cfg.maxRunDuration);
    HeldIsReissued(r, who, request, at, l.cfg.maxRunDuration);
    TakeFields(r, who, request, at, l.cfg.maxRunDuration);
    if v.Take? {
      CapFields(Bumped(v.next), who, request.dispatch);
    }
  }

  lemma ClaimOfTaken(l: Ledger.State, r: Result, who: Claimant, request: ClaimRequest, at: nat)
    requires r.uid in l.db.results && l.db.results[r.uid] == r && !r.snapshot.IsZero() && r.status != Pending
    ensures ClaimOf(l, r, who, request, at)
  {
    hide C.Taken, C.Authorises, C.Stranded, C.MayBeTaken, HeldThrough, AuthorizeRun, Adjudicate;
    HeldIsReissued(r, who, request, at, l.cfg.maxRunDuration);
    NotPendingNotTaken(l, r, who, request, at);
    if HeldThrough(r, who, request) {
      CapFields(r, who, request.dispatch);
    }
  }

  lemma ClaimMeans(l: Ledger.State, r: Result, who: Claimant, request: ClaimRequest, at: nat)
    requires r.uid in l.db.results && l.db.results[r.uid] == r
    ensures ClaimOf(l, r, who, request, at)
  {
    hide ClaimOf;
    if r.snapshot.IsZero() {
      ClaimOfNothing(l, r, who, request, at);
    } else if r.status == Pending {
      ClaimOfPending(l, r, who, request, at);
    } else {
      ClaimOfTaken(l, r, who, request, at);
    }
  }

  lemma ZeroIsRefused(r: Result, who: Claimant, request: ClaimRequest, at: nat, maximum: int)
    requires r.snapshot.IsZero()
    ensures var v := Adjudicate(Some(r), who, request, at, maximum);
      (v.Refuse? || v.Unschedulable?) && (C.MayBeTaken(r, who, request) ==> v.Unschedulable? && r.status == Pending) && !HeldThrough(r, who, request)
  {
  }
}
