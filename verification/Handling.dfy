/**
 What a worker does with one delivered message, from the envelope to the broker action: the
 sequential code of each goroutine whose interleavings `Worker` and `System` study.
 */
module Handling {
  import opened Domain
  import opened Options
  import W = Worker

  /** What the broker knows of a delivered message: nothing, removed, or due again. */
  datatype Fate = Outstanding | Removed | DueAgain

  class Message {
    var fate: Fate

    constructor ()
      ensures fate == Outstanding
    {
      fate := Outstanding;
    }

    /** Each call may be lost on the way; then the broker redelivers after its ack wait. */
    method Settle(next: Fate, delivered: bool)
      modifies this
      ensures fate == if delivered then next else old(fate)
    {
      if delivered {
        fate := next;
      }
    }
  }

  datatype Envelope = Envelope(uid: string, runner: string)

  /** The control plane's answer to a dead-letter report: recorded, or an error that carries a
      status when the API chose one. */
  datatype ReportAnswer = Recorded | NotRecorded(status: Option<int>)

  predicate MayRemove(answer: ReportAnswer) {
    answer.Recorded? || PermanentReportRefusal(answer.status)
  }

  /** Everything the outside world decides while one message is handled. */
  datatype Circumstances = Circumstances(
    envelope: Option<Envelope>, claim: ClaimOutcome, report: ReportAnswer, delivered: bool)

  class Worker {
    const runner: string
    const inFlight: W.InFlightRuns

    constructor (runner: string)
      ensures this.runner == runner && fresh(inFlight) && inFlight.runs == {}
    {
      this.runner := runner;
      inFlight := new W.InFlightRuns();
    }

    /** Reports first and removes only what is on record or will never be accepted. */
    method Terminate(msg: Message, c: Circumstances)
      requires msg.fate == Outstanding
      modifies msg
      ensures msg.fate == if !c.delivered then Outstanding else if MayRemove(c.report) then Removed else DueAgain
    {
      var mayTerminate := c.report.Recorded?;
      if !mayTerminate {
        mayTerminate := PermanentReportRefusal(c.report.status);
      }
      if !mayTerminate {
        msg.Settle(DueAgain, c.delivered);
        return;
      }
      msg.Settle(Removed, c.delivered);
    }

    method ApplyDisposition(msg: Message, c: Circumstances) returns (execute: bool)
      requires msg.fate == Outstanding
      modifies msg
      ensures execute <==> c.claim.ClaimAccepted?
      ensures msg.fate == if c.delivered then ClaimFate(c) else Outstanding
    {
      match c.claim {
        case ClaimAccepted =>
          msg.Settle(Removed, c.delivered);
          return true;
        case ClaimRetry =>
          msg.Settle(DueAgain, c.delivered);
        case ClaimStale =>
          msg.Settle(Removed, c.delivered);
        case ClaimTerminal =>
          Terminate(msg, c);
        case ClaimAbandon =>
      }
      return false;
    }

    /** Executes the run only when the message is readable, addressed to this runner, not
        already held by this process, and granted; gives the run back whatever happens; and
        settles the message exactly as `HandledFate` says. */
    method Handle(msg: Message, c: Circumstances) returns (executed: bool)
      requires msg.fate == Outstanding
      modifies msg, inFlight
      ensures inFlight.runs == old(inFlight.runs)
      ensures executed <==>
        c.envelope.Some? && c.envelope.value.runner == runner && c.envelope.value.uid !in old(inFlight.runs)
        && c.claim.ClaimAccepted?
      ensures msg.fate == if c.delivered then HandledFate(runner, old(inFlight.runs), c) else Outstanding
    {
      if c.envelope.None? {
        Terminate(msg, c);
        return false;
      }
      var envelope := c.envelope.value;
      if envelope.runner != runner {
        Terminate(msg, c);
        return false;
      }
      var granted := inFlight.Acquire(envelope.uid);
      if !granted {
        msg.Settle(Removed, c.delivered);
        return false;
      }
      executed := ApplyDisposition(msg, c);
      inFlight.Release(envelope.uid);
    }
  }

  /** What becomes of a message whose claim was asked for, when the broker hears of it. */
  function ClaimFate(c: Circumstances): Fate {
    match c.claim
    case ClaimAccepted => Removed
    case ClaimStale => Removed
    case ClaimRetry => DueAgain
    case ClaimTerminal => if MayRemove(c.report) then Removed else DueAgain
    case ClaimAbandon => Outstanding
  }

  function HandledFate(runner: string, held: set<string>, c: Circumstances): Fate {
    if c.envelope.None? || c.envelope.value.runner != runner then
      if MayRemove(c.report) then Removed else DueAgain
    else if c.envelope.value.uid in held then Removed
    else ClaimFate(c)
  }

  /** The outcome a worker reaches for an API answer, and the fate that follows from it, over all
      status codes: only a conflict removes a message without a report, and whatever is not a
      client error never removes one. */
  lemma StatusDecidesRemoval(status: Option<int>, c: Circumstances)
    requires c.claim == ClassifyClaimFailure(status)
    ensures status == Some(STATUS_CONFLICT) <==> c.claim.ClaimStale?
    ensures ClaimFate(c) == Removed && !MayRemove(c.report) ==> status == Some(STATUS_CONFLICT)
    ensures ClaimFate(c) == Removed ==> status.Some? && 400 <= status.value < 500
    ensures status.None? || status.value >= 500 ==> ClaimFate(c) == DueAgain
  {
  }

  /** The outcome of every status a claim may be answered with: a conflict means the run needs the
      message no more; a request that is malformed, not authorised, forbidden or about nothing known
      fails for good; everything else, an absent answer included, is tried again. */
  lemma OutcomeOfStatus(status: Option<int>)
    ensures var outcome := ClassifyClaimFailure(status);
      && (outcome == ClaimStale <==> status == Some(409))
      && (outcome == ClaimTerminal <==> status in {Some(400), Some(401), Some(403), Some(404)})
      && (outcome == ClaimRetry <==> status !in {Some(400), Some(401), Some(403), Some(404), Some(409)})
  {
  }

  /** What the control plane decides reaches the worker intact through the status it is carried
      by: an obsolete dispatch is discarded, a forbidden one reported, an unavailable answer
      retried, and no two dispositions are confused. */
  lemma DispositionsSurviveHttp(d: Disposition, e: Disposition)
    ensures ClassifyClaimFailure(Some(ClaimHttpStatus(d))) ==
      match d { case Obsolete => ClaimStale case Forbidden => ClaimTerminal case Unavailable => ClaimRetry }
    ensures ClassifyClaimFailure(Some(ClaimHttpStatus(d))) == ClassifyClaimFailure(Some(ClaimHttpStatus(e))) ==> d == e
    ensures ClaimHttpStatus(d) == match d { case Obsolete => 409 case Forbidden => 403 case Unavailable => 503 }
  {
  }

  /** A message leaves the queue through a worker exactly when its claim was granted, its run
      needs it no more, this process already holds the run, or its failure is on record or will
      be refused for ever. */
  lemma RemovedMeansSettled(runner: string, held: set<string>, c: Circumstances)
    ensures HandledFate(runner, held, c) == Removed <==>
      var mine := c.envelope.Some? && c.envelope.value.runner == runner;
      || (mine && c.envelope.value.uid in held)
      || (mine && (c.claim.ClaimAccepted? || c.claim.ClaimStale?))
      || ((!mine || c.claim.ClaimTerminal?)
          && (c.report.Recorded? || (c.report.status.Some? && 400 <= c.report.status.value < 500)))
  {
  }

  /** It is left to the broker's own timer exactly when the worker gave up waiting for an answer to
      its claim, and asked for again at once in every other case. */
  lemma LeftAloneMeansAbandoned(runner: string, held: set<string>, c: Circumstances)
    ensures HandledFate(runner, held, c) == Outstanding <==>
      && c.envelope.Some? && c.envelope.value.runner == runner && c.envelope.value.uid !in held
      && c.claim.ClaimAbandon?
  {
  }
}
