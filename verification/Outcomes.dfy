/**
 What one answer from upstream does to the batch it answers (worker.go,
 `deliverHead`), told in statuses and buckets, and what replayed batches may still
 be sent.
 */
module Outcomes {
  import opened Prelude
  import opened Keys
  import opened InboxModel
  import opened InboxInvariants
  import opened Backoff
  import opened Delivery
  import opened Drain
  import opened Lifecycle
  import Text

  /** Statuses that an operator can fix by rotating credentials or restoring a project. */
  predicate IsOperatorStatus(status: int) {
    status in {401, 403, 404}
  }

  predicate IsSuccess(status: int, sendFailed: bool) {
    !sendFailed && 200 <= status <= 299
  }

  /** An answer after which the batch is not sent again; `last` says that the operator's time is over. */
  predicate IsRejected(status: int, sendFailed: bool, last: bool) {
    && !sendFailed
    && (if IsOperatorStatus(status) then last else 400 <= status <= 499 && status !in {408, 429})
  }

  /** Which of the three answers it is. */
  lemma ClassifiedByStatus(status: int, sendFailed: bool, attempts: int, limit: int)
    ensures var kind := Classify(status, sendFailed, attempts, limit);
      && (kind.Success? <==> IsSuccess(status, sendFailed))
      && (kind.Permanent? <==> IsRejected(status, sendFailed, attempts + 1 >= limit))
      && (kind.Retryable? <==> !IsSuccess(status, sendFailed) && !IsRejected(status, sendFailed, attempts + 1 >= limit))
  {
  }

  ghost predicate StillHead(s: State, s': State, key: Key, a: Attempt, config: Options)
    requires config == Normalized(config) && key in s.batches
  {
    && Queue(s') == Queue(s) && key in s'.batches
    && s'.batches[key].attempts == s.batches[key].attempts + 1
    && s'.batches[key].envelope == s.batches[key].envelope
    && s'.batches[key].nextRetry == NextRetry(s.batches[key], a, config)
    && s'.batches[key].lastError == (if a.sendFailed then "upstream_network" else "upstream_" + Text.Itoa(a.status))
    && s'.receipts == s.receipts
  }

  /**
   The head of the queue is delivered, its payload gone, exactly on an answer of 200
   to 299. It is in quarantine, under the status, exactly on any other 4xx than 408,
   429 and the operator's three, or on one of these at the last attempt. Otherwise,
   and whenever the sending failed, it is still the head, with one more attempt.
   */
  lemma OutcomeByStatus(s: State, a: Attempt, config: Options)
    requires Consistent(s) && config == Normalized(config) && Head(s).Some?
    ensures var key, batch, s' := Queue(s)[0], Head(s).value, OutcomeTx(s, Head(s).value, a, config).After(s);
      && Queue(s) != [] && key in s.batches && s.batches[key] == batch && OthersStay(s, s', key)
      && (IsSuccess(a.status, a.sendFailed) <==> IsCompleted(s', key, Delivered, a.now, ""))
      && (IsSuccess(a.status, a.sendFailed) ==> key !in s'.quarantine && Queue(s') == Queue(s)[1..])
      && (IsRejected(a.status, a.sendFailed, batch.attempts + 1 >= config.operatorRetryLimit) <==>
            IsCompleted(s', key, Quarantined, a.now, "upstream_" + Text.Itoa(a.status)))
      && (IsRejected(a.status, a.sendFailed, batch.attempts + 1 >= config.operatorRetryLimit) ==>
            key in s'.quarantine && s'.quarantine[key] == batch && Queue(s') == Queue(s)[1..])
      && (!IsSuccess(a.status, a.sendFailed)
          && !IsRejected(a.status, a.sendFailed, batch.attempts + 1 >= config.operatorRetryLimit) <==>
            StillHead(s, s', key, a, config))
  {
    var batch, key := Head(s).value, Queue(s)[0];
    HeadIsNeverMissing(s);
    ClassifiedByStatus(a.status, a.sendFailed, batch.attempts, config.operatorRetryLimit);
    hide Consistent, Queue, Classify, NextRetry, DeliveredTx, QuarantinedTx, RetryTx, OthersStay, IsRejected, Text.Itoa;
    match Classify(a.status, a.sendFailed, batch.attempts, config.operatorRetryLimit)
    case Success =>
      DeliveryIsStored(s, key, a.now);
      DeliveredMovesHead(s, a.now);
    case Permanent =>
      QuarantineIsStored(s, key, "upstream_" + Text.Itoa(a.status), a.now);
      QuarantinedMovesHead(s, "upstream_" + Text.Itoa(a.status), a.now);
    case Retryable =>
      var next := NextRetry(batch, a, config);
      RetryIsStored(s, key, next, RetryErrorClass(a.status, a.sendFailed));
      RetryKeepsQueue(s, key, next, RetryErrorClass(a.status, a.sendFailed));
  }

  // --- When a batch is tried again -----------------------------------------

  /** Without Retry-After the wait is the jittered doubling of the batch's own attempts, a millisecond at least. */
  lemma RetryDoublesWithAttempts(batch: Batch, a: Attempt, config: Options)
    requires config == Normalized(config) && config.maxRetry % 2 == 0 && Text.AllSpace(a.retryAfter) && Sane(a)
    ensures var base, max := config.baseRetry as int, config.maxRetry as int;
      var delay := Min(max, base * Pow2(batch.attempts));
      0 <= delay <= MAX_INT64 && NextRetry(batch, a, config) == a.answeredAt + Max(a.jitter(delay as int64) as int, 1_000_000)
  {
    CeilingIsCappedDoubling(config.baseRetry as int, config.maxRetry as int, batch.attempts);
    CeilingInRange(config.baseRetry as int, config.maxRetry as int, batch.attempts);
    BlankAsksForNothing(a.retryAfter, a.answeredAt, a.httpDate);
    hide ParseRetryAfter, Ceiling, Pow2;
  }

  /** A date in Retry-After is waited for, up to the cap; a batch waits longer only for its own delay. */
  lemma RetryWaitsForDate(batch: Batch, a: Attempt, config: Options, date: Time)
    requires config == Normalized(config) && Sane(a)
    requires !Text.AllSpace(a.retryAfter) && Text.ParseInt64(Text.TrimSpace(a.retryAfter)).None? && a.httpDate == Some(date)
    ensures NextRetry(batch, a, config) >= Min(date, a.answeredAt + config.retryAfterCap as int)
    ensures NextRetry(batch, a, config) <= Max(Max(Min(date, a.answeredAt + config.retryAfterCap as int),
                                                   a.answeredAt + config.maxRetry as int), a.answeredAt + 1_000_000)
  {
    CeilingInRange(config.baseRetry as int, config.maxRetry as int, batch.attempts);
    DateIsHonoured(a.retryAfter, a.answeredAt, date);
    hide ParseRetryAfter, Ceiling, Text.TrimSpace, Text.ParseInt64;
  }

  // --- Replayed batches ----------------------------------------------------

  /**
   Replayed into an empty queue, n payloads have their whole budget again: an
   upstream that answers only 401, 403 or 404 gets each of them as often as a new
   one, and they are gone after n * limit sends, no earlier and no later.
   */
  lemma ReplayedDrainExactly(s: State, admits: nat -> bool, attempts: seq<Attempt>, config: Options)
    requires Consistent(s) && Queue(s) == [] && config == Normalized(config)
    requires ReplayAllTx(s, admits).Commit?
    requires var s' := ReplayAllTx(s, admits).state;
      ClockKeepsUp(s', attempts, config) && OnlyOperatorFixable(attempts)
    requires |attempts| <= |s.quarantine| * config.operatorRetryLimit
    ensures Queue(Sends(ReplayAllTx(s, admits).state, attempts, config)) == [] <==>
      |attempts| == |s.quarantine| * config.operatorRetryLimit
  {
    var s' := ReplayAllTx(s, admits).state;
    ReplayAllAppendsInAcceptanceOrder(s, admits);
    AllFreshAfterReplay(s, admits);
    assert |Queue(s')| == |s.quarantine|;
    hide *;
    OperatorRejectionsDrainExactly(s', attempts, config);
  }

  lemma AllFreshAfterReplay(s: State, admits: nat -> bool)
    requires Consistent(s) && Queue(s) == [] && ReplayAllTx(s, admits).Commit?
    ensures AllFresh(ReplayAllTx(s, admits).state)
  {
    var keys, s' := AcceptanceOrder(s.quarantine), ReplayAllTx(s, admits).state;
    ReplayAllAppendsInAcceptanceOrder(s, admits);
    QueueListsPending(s');
    assert Queue(s') == keys;
    forall k | k in s'.batches ensures s'.batches[k].attempts == 0 {
      assert k in keys;
      var i :| 0 <= i < |keys| && keys[i] == k;
      AllReplayedAreFresh(s, admits, i);
    }
    hide Consistent, Queue, ReplayAllTx, AcceptanceOrder;
  }

  // --- Options -------------------------------------------------------------

  /** Options that are not positive are replaced by a second, five minutes, an hour and six attempts. */
  lemma DefaultOptions(o: Options)
    ensures Normalized(o).maxRetry == if o.maxRetry > 0 then o.maxRetry else 300_000_000_000
    ensures Normalized(o).baseRetry as int
      == Min(if o.baseRetry > 0 then o.baseRetry as int else 1_000_000_000, Normalized(o).maxRetry as int)
    ensures Normalized(o).retryAfterCap == if o.retryAfterCap > 0 then o.retryAfterCap else 3_600_000_000_000
    ensures Normalized(o).operatorRetryLimit == if o.operatorRetryLimit > 0 then o.operatorRetryLimit else 6
  {
  }
}
