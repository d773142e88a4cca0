/** _process and _handle: what one message comes to, and which failures are retried. */
module HandleMessage {
  import opened Prelude
  import opened RateScale
  import opened Ledger
  import opened ListenerProtocol
  import opened ListenerBatch
  import opened FailureKind

  /** GET of the accepted offer's key, and what the payload is. */
  datatype Lookup =
    | Unanswered(exc: ErrorId)
    | NoKey
    | Corrupt
    | Legacy
    | Offer(campaign: CampaignId, offer: OfferId)

  datatype EngineCall =
    | Returned(stamp: Stamp)
    | Raised(exc: ErrorId, stamp: Stamp, effect: bool)  // effect: after the commit

  /** What the outside world does with one message. */
  datatype Answer = Answer(
    decoding: Option<ErrorId>,    // the exception of _decode or parse_transaction
    lookup: Lookup,
    userIsUuid: bool,
    notUuid: ErrorId,             // the PermanentMessageError raised for such a user
    engine: EngineCall,
    published: bool)              // the dead letter, if one is sent, is acknowledged

  /** Garbage never decodes; a transaction fails to only for a reason that may pass. */
  ghost predicate Fits(errors: map<ErrorId, Error>, record: Record, a: Answer) {
    && Closed(errors) && a.notUuid in errors && errors[a.notUuid].kind == PermanentMessage
    && (record.Garbage? ==> a.decoding.Some?)
    && (a.decoding.Some? ==> a.decoding.value in errors)
    && (a.decoding.Some? && record.Transaction? ==> Retryable(errors, a.decoding.value))
    && (a.lookup.Unanswered? ==> a.lookup.exc in errors)
    && (a.engine.Raised? ==> a.engine.exc in errors)
    // An error about the data aborts the transaction.
    && (a.engine.Raised? && a.engine.effect ==> Retryable(errors, a.engine.exc))
  }

  /** The purchase the engine is asked about. */
  function Bought(record: Record, a: Answer): (p: Purchase)
    requires record.Transaction? && a.lookup.Offer?
    ensures PurchaseOf(record, p) && a.lookup == Lookup.Offer(p.campaign, p.offer)
  {
    Purchase(record.user, a.lookup.campaign, a.lookup.offer, record.tx, record.mcc, record.amount, record.at)
  }

  /** The exception _process raises, if any: the first step that fails. */
  function Failure(a: Answer): Option<ErrorId> {
    if a.decoding.Some? then a.decoding
    else match a.lookup
      case Unanswered(exc) => Some(exc)
      case Offer(_, _) =>
        if !a.userIsUuid then Some(a.notUuid) else if a.engine.Raised? then Some(a.engine.exc) else None
      case _ => None
  }

  /** The engine is asked at all. */
  predicate AsksEngine(a: Answer) {
    a.decoding.None? && a.lookup.Offer? && a.userIsUuid
  }

  datatype Processed =
    | Label                                    // no_offer, bad_offer, legacy_offer
    | Asked(p: Purchase, stamp: Stamp)
    | Failed(exc: ErrorId)

  /** _process: decode, look up the offer, check it, accrue. */
  method Process(record: Record, a: Answer, ghost errors: map<ErrorId, Error>) returns (r: Processed)
    requires Fits(errors, record, a)
    ensures r.Failed? <==> Failure(a).Some?
    ensures r.Failed? ==> Failure(a) == Some(r.exc) && r.exc in errors
    ensures r.Asked? <==> AsksEngine(a) && a.engine.Returned?
    ensures r.Asked? ==> r.p == Bought(record, a) && r.stamp == a.engine.stamp
    ensures r.Label? ==> record.Transaction?
  {
    if a.decoding.Some? {
      return Failed(a.decoding.value);
    }
    match a.lookup {
      case Unanswered(exc) => return Failed(exc);
      case NoKey => return Label;
      case Corrupt => return Label;
      case Legacy => return Label;
      case Offer(_, _) =>
        if !a.userIsUuid {
          return Failed(a.notUuid);
        }
        match a.engine {
          case Returned(stamp) => return Asked(Bought(record, a), stamp);
          case Raised(exc, _, _) => return Failed(exc);
        }
    }
  }

  /**
   * _handle: a failure that may pass is raised again, any other goes to the dead
   * letters.  The result is an attempt the protocol allows for this record.
   */
  method HandleOne(record: Record, a: Answer, errors: map<ErrorId, Error>) returns (attempt: Attempt)
    requires Fits(errors, record, a)
    ensures Possible(record, attempt)
    ensures attempt.Transient? <==> Failure(a).Some? && Retryable(errors, Failure(a).value)
    ensures attempt.Permanent? <==> Failure(a).Some? && !Retryable(errors, Failure(a).value)
    ensures attempt.AccrueCall? <==> AsksEngine(a) && a.engine.Returned?
    ensures attempt.AccrueCall? ==> attempt.p == Bought(record, a) && attempt.stamp == a.engine.stamp
    // A commit whose answer was lost is retried, with its effect.
    ensures attempt.Transient? && attempt.effect <==> AsksEngine(a) && a.engine.Raised? && a.engine.effect
    ensures attempt.Transient? && attempt.effect ==> attempt.p == Bought(record, a) && attempt.stamp == a.engine.stamp
    ensures a.decoding.Some? || a.lookup.Unanswered? ==> attempt.Permanent? || (attempt.Transient? && !attempt.effect)
    // Case by case, with the purchase and the published letter spelled out.
    ensures a.decoding.None? && (a.lookup.NoKey? || a.lookup.Corrupt? || a.lookup.Legacy?) ==> attempt == Offerless
    ensures a.decoding.None? && a.lookup.Offer? && !a.userIsUuid ==> attempt == Permanent(a.published)
    ensures a.decoding.None? && a.lookup.Offer? && a.userIsUuid && a.engine.Returned? ==>
      attempt == AccrueCall(Purchase(record.user, a.lookup.campaign, a.lookup.offer, record.tx, record.mcc,
                                     record.amount, record.at), a.engine.stamp)
    ensures attempt.Permanent? ==> attempt.published == a.published
    // An error of the accrual is a dead letter exactly with a state of class 22 or 23.
    ensures forall n: nat ::
      a.decoding.None? && a.lookup.Offer? && a.userIsUuid && a.engine.Raised?
      && errors[a.engine.exc].kind == OtherKind && FirstAt(errors, a.engine.exc, n) ==>
        var state := StateAt(errors, a.engine.exc, n);
        (attempt.Permanent? <==> |state| >= 2 && state[0] == '2' && (state[1] == '2' || state[1] == '3'))
    // The offset moves on exactly when nothing failed, or the failure is about
    // the message and its dead letter is acknowledged.
    ensures Succeeds(attempt) <==> Failure(a).None? || (!Retryable(errors, Failure(a).value) && a.published)
  {
    var r := Process(record, a, errors);
    if a.engine.Raised? {
      forall n: nat | FirstAt(errors, a.engine.exc, n)
        ensures Retryable(errors, a.engine.exc) <==>
          errors[a.engine.exc].kind != PermanentMessage && !AboutMessage(StateAt(errors, a.engine.exc, n))
      {
        RetryableByState(errors, a.engine.exc, n);
      }
    }
    match r {
      case Label => return Offerless;
      case Asked(p, stamp) => return AccrueCall(p, stamp);
      case Failed(exc) =>
        var retry := IsRetryable(errors, exc);
        if !retry {
          return Permanent(a.published);
        }
        if a.decoding.None? && a.lookup.Offer? && a.userIsUuid && a.engine.Raised? {
          return Transient(Bought(record, a), a.engine.stamp, a.engine.effect);
        }
        return Transient(Purchase(0, 0, 0, "", "", 0.0, 0), Stamp(0, 0, 0), false);
    }
  }
}
