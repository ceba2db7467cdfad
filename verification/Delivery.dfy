/** Delivering the head of the queue (worker.go) and draining the whole queue. */
module Delivery {
  import opened Prelude
  import opened Keys
  import opened InboxModel
  import opened InboxInvariants
  import opened BoltStore
  import opened Backoff
  import Text

  datatype Class = Retryable | Success | Permanent

  /** `classify`: what one answer from upstream means for a batch with `attempts` failed attempts. */
  function Classify(status: int, sendFailed: bool, attempts: int, operatorRetryLimit: int): Class {
    if sendFailed || status == 408 || status == 429 || status >= 500 then Retryable
    else if 200 <= status < 300 then Success
    else if status == 401 || status == 403 || status == 404 then
      if attempts + 1 < operatorRetryLimit then Retryable else Permanent
    else if 400 <= status < 500 then Permanent
    else Retryable
  }

  predicate OperatorFixable(status: int) {
    status == 401 || status == 403 || status == 404
  }

  function ErrorClass(status: int): string {
    "upstream_" + Text.Itoa(status)
  }

  function RetryErrorClass(status: int, sendFailed: bool): string {
    if sendFailed then "upstream_network" else ErrorClass(status)
  }

  /** The answer to one send, and the clock and jitter around it. */
  datatype Attempt = Attempt(
    now: Time, status: int, sendFailed: bool, retryAfter: string, httpDate: Option<Time>,
    answeredAt: Time, jitter: int64 -> int64)

  /** The clock reads after the zero instant and the jitter stays within the delay. */
  ghost predicate Sane(a: Attempt) {
    && a.now > ZERO_TIME && a.answeredAt >= ZERO_TIME
    && forall d: int64 :: d >= 0 ==> 0 <= a.jitter(d) <= d
  }

  function NextRetry(batch: Batch, a: Attempt, config: Options): Time
    requires config == Normalized(config)
  {
    RetryAt(batch.attempts, a.answeredAt, a.retryAfter, a.httpDate, config, a.jitter)
  }

  /** The transaction that records the outcome of sending `batch`. */
  function OutcomeTx(s: State, batch: Batch, a: Attempt, config: Options): Tx<()>
    requires config == Normalized(config)
  {
    var key := EnvelopeKey(batch.envelope);
    match Classify(a.status, a.sendFailed, batch.attempts, config.operatorRetryLimit)
    case Success => DeliveredTx(s, key, a.now)
    case Permanent => QuarantinedTx(s, key, ErrorClass(a.status), a.now)
    case Retryable => RetryTx(s, key, NextRetry(batch, a, config), RetryErrorClass(a.status, a.sendFailed))
  }

  function MarkReply(r: Result<bool, Error>): Result<(), Error> {
    match r case Ok(_) => Ok(()) case Err(e) => Err(e)
  }

  class Worker {
    const store: BoltStore
    const config: Options
    /** The one-slot trigger channel: full or empty. */
    var slot: bool

    constructor (store: BoltStore, options: Options)
      ensures this.store == store && config == Normalized(options) && !slot
      ensures config == Normalized(config)
    {
      this.store := store;
      config := Normalized(options);
      slot := false;
    }

    /** Any number of triggers before the worker looks leave one wakeup. */
    method Trigger()
      modifies this`slot
      ensures slot
    {
      slot := true;
    }

    /**
     One wait for work. `received` says whether a blocked wait ended by taking
     the trigger; it can only if the slot was full. A due retry time does not
     block and leaves the slot alone.
     */
    method Wait(nextRetry: Time, now: Time, received: bool) returns (blocked: bool)
      requires received ==> slot
      modifies this`slot
      ensures blocked <==> nextRetry == ZERO_TIME || nextRetry > now
      ensures slot == (old(slot) && !(blocked && received))
    {
      blocked := nextRetry == ZERO_TIME || nextRetry - now > 0;
      if blocked && received { slot := false; }
    }

    /** Peek, send, and mark; false means that nothing was due. */
    method DeliverHead(ctx: Context, a: Attempt, syncOk: bool) returns (r: Result<bool, Error>)
      requires store.Valid() && config == Normalized(config) && Sane(a)
      modifies store
      ensures store.Valid() && store.closed == old(store.closed)
      ensures ctx.cancelledBefore ==> r == Err(Cancelled) && store.Now() == old(store.Now())
      ensures !ctx.cancelledBefore && store.closed ==> r == Err(Closed) && store.Now() == old(store.Now())
      ensures !ctx.cancelledBefore && !store.closed ==>
        var head := Head(old(store.View()));
        if head.None? || !Due(head.value, a.now) then r == Ok(false) && store.Now() == old(store.Now())
        else
          && r != Ok(false)
          && Settles(Blocked(ctx, false), OutcomeTx(old(store.View()), head.value, a, config), syncOk,
                     old(store.Now()), store.Now(), MarkReply(r))
    {
      hide Consistent, Settles, ReceiptKey, Queue, DeliveredTx, QuarantinedTx, RetryTx, Classify, RetryAt, ParseRetryAfter, RetryErrorClass, Text.Itoa;
      HeadIsNeverMissing(store.View());
      var peeked := store.PeekEligible(ctx.cancelledBefore, a.now);
      if peeked.Err? { return Err(peeked.error); }
      if peeked.value.None? { return Ok(false); }
      var batch := peeked.value.value;
      var accountId, batchId := batch.envelope.accountId, batch.envelope.batchId;
      var marked;
      match Classify(a.status, a.sendFailed, batch.attempts, config.operatorRetryLimit) {
        case Success =>
          marked := store.MarkDelivered(ctx, accountId, batchId, a.now, a.now, syncOk);
        case Permanent =>
          marked := store.MarkQuarantined(ctx, accountId, batchId, ErrorClass(a.status), a.now, a.now, syncOk);
        case Retryable =>
          RetryTimeIsBounded(batch.attempts, a.answeredAt, a.retryAfter, a.httpDate, config, a.jitter);
          var at := FullJitter(batch.attempts, a.answeredAt, a.retryAfter, a.httpDate, config, a.jitter);
          marked := store.MarkRetry(ctx, accountId, batchId, at, RetryErrorClass(a.status, a.sendFailed), syncOk);
      }
      r := match marked case Ok(_) => Ok(true) case Err(e) => Err(e);
      assert marked.Ok? ==> marked.value == ();
      assert MarkReply(r) == marked;
      assert Blocked(ctx, store.closed) == Blocked(ctx, false);
    }
  }
}
