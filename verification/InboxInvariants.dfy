/** What every transaction of the inbox keeps, and what it does to the abstract queue. */
module InboxInvariants {
  import opened Prelude
  import opened Keys
  import opened Ordering
  import opened InboxModel

  // --- The cross-bucket invariant is preserved -----------------------------

  lemma EmptyIsConsistent()
    ensures Consistent(EMPTY)
    ensures Queue(EMPTY) == []
  {
  }

  lemma AcceptKeepsConsistency(s: State, env: Envelope, now: Time, admitted: bool)
    requires Consistent(s)
    ensures Consistent(AcceptTx(s, env, now, admitted).After(s))
  {
    var tx := AcceptTx(s, env, now, admitted);
    if tx.Commit? && tx.reply.outcome.Accepted? {
      AcceptIsEnqueue(s, env, now);
      EnqueueKeepsConsistency(s, EnvelopeKey(env), FreshBatch(env, s.counter + 1, now), PendingReceipt(env, now));
    }
  }

  lemma AcceptIsEnqueue(s: State, env: Envelope, now: Time)
    requires PendingIffBatch(s) && QuarantineHasReceipt(s) && EnvelopeKey(env) !in s.receipts
    ensures var batch, receipt := FreshBatch(env, s.counter + 1, now), PendingReceipt(env, now);
      && CanEnqueue(s, EnvelopeKey(env), batch, receipt)
      && AcceptTx(s, env, now, true).state == Enqueue(s, EnvelopeKey(env), batch, receipt)
  {
    assert s.quarantine - {EnvelopeKey(env)} == s.quarantine;
  }

  /** The common part of admission and replay: a key enters the queue at its tail. */
  ghost function Enqueue(s: State, key: Key, batch: Batch, receipt: Receipt): State {
    State(batch.sequence, s.batches[key := batch], s.fifo[batch.sequence := key],
          s.receipts[key := receipt], s.quarantine - {key})
  }

  ghost predicate CanEnqueue(s: State, key: Key, batch: Batch, receipt: Receipt) {
    && key !in s.batches
    && batch.sequence == s.counter + 1
    && receipt.state.Pending? && receipt.completedAt == ZERO_TIME && receipt.errorClass == ""
    && Matches(key, batch, receipt)
  }

  lemma EnqueueKeepsIndex(s: State, key: Key, batch: Batch, receipt: Receipt)
    requires FifoIndexesBatches(s) && SequencesDistinct(s) && CanEnqueue(s, key, batch, receipt)
    ensures FifoIndexesBatches(Enqueue(s, key, batch, receipt))
    ensures SequencesDistinct(Enqueue(s, key, batch, receipt))
  {
    assert forall q :: q in s.fifo ==> q <= s.counter;
  }

  lemma EnqueueKeepsReceipts(s: State, key: Key, batch: Batch, receipt: Receipt)
    requires PendingIffBatch(s) && QuarantineHasReceipt(s) && PayloadsMatchReceipts(s)
    requires CanEnqueue(s, key, batch, receipt)
    ensures var s' := Enqueue(s, key, batch, receipt);
      PendingIffBatch(s') && QuarantineHasReceipt(s') && PayloadsMatchReceipts(s')
  {
  }

  lemma EnqueueKeepsConsistency(s: State, key: Key, batch: Batch, receipt: Receipt)
    requires Consistent(s) && CanEnqueue(s, key, batch, receipt)
    ensures Consistent(Enqueue(s, key, batch, receipt))
  {
    EnqueueKeepsIndex(s, key, batch, receipt);
    EnqueueKeepsReceipts(s, key, batch, receipt);
    hide FifoIndexesBatches, PendingIffBatch, QuarantineHasReceipt, PayloadsMatchReceipts, SequencesDistinct;
  }

  /** A retry rewrites one batch without touching what the receipts and the index rely on. */
  ghost predicate Reschedules(s: State, key: Key, s': State) {
    && key in s.batches && key in s'.batches
    && s' == s.(batches := s.batches[key := s'.batches[key]])
    && s'.batches[key].sequence == s.batches[key].sequence
    && s'.batches[key].envelope == s.batches[key].envelope
    && s'.batches[key].acceptedAt == s.batches[key].acceptedAt
  }

  lemma RescheduleKeepsIndex(s: State, key: Key, s': State)
    requires FifoIndexesBatches(s) && SequencesDistinct(s) && Reschedules(s, key, s')
    ensures FifoIndexesBatches(s') && SequencesDistinct(s')
  {
  }

  lemma RescheduleKeepsReceipts(s: State, key: Key, s': State)
    requires PendingIffBatch(s) && QuarantineHasReceipt(s) && PayloadsMatchReceipts(s) && Reschedules(s, key, s')
    ensures PendingIffBatch(s') && QuarantineHasReceipt(s') && PayloadsMatchReceipts(s')
  {
  }

  lemma RescheduleKeepsConsistency(s: State, key: Key, s': State)
    requires Consistent(s) && Reschedules(s, key, s')
    ensures Consistent(s')
  {
    RescheduleKeepsIndex(s, key, s');
    RescheduleKeepsReceipts(s, key, s');
    hide FifoIndexesBatches, PendingIffBatch, QuarantineHasReceipt, PayloadsMatchReceipts, SequencesDistinct;
  }

  lemma RetryKeepsConsistency(s: State, key: Key, nextRetry: Time, lastError: string)
    requires Consistent(s)
    ensures Consistent(RetryTx(s, key, nextRetry, lastError).After(s))
  {
    hide Consistent;
    if key in s.batches {
      RescheduleKeepsConsistency(s, key, RetryTx(s, key, nextRetry, lastError).state);
    }
  }

  /** The common part of delivery and quarantine: a batch leaves the queue and its receipt turns terminal. */
  ghost predicate Dequeues(s: State, key: Key, s': State) {
    && key in s.batches && key in s.receipts && key in s'.receipts
    && s'.counter == s.counter
    && s'.batches == s.batches - {key}
    && s'.fifo == s.fifo - {s.batches[key].sequence}
    && s'.receipts == s.receipts[key := s'.receipts[key]]
    && !s'.receipts[key].state.Pending?
    && s'.receipts[key].accountId == s.receipts[key].accountId
    && s'.receipts[key].batchId == s.receipts[key].batchId
    && s'.receipts[key].payloadSha256 == s.receipts[key].payloadSha256
    && s'.receipts[key].acceptedAt == s.receipts[key].acceptedAt
    && (s'.quarantine == s.quarantine
        || (s'.quarantine == s.quarantine[key := s.batches[key]] && s'.receipts[key].state.Quarantined?))
  }

  lemma DequeueKeepsIndex(s: State, key: Key, s': State)
    requires FifoIndexesBatches(s) && Dequeues(s, key, s')
    ensures FifoIndexesBatches(s')
  {
  }

  lemma DequeueKeepsReceipts(s: State, key: Key, s': State)
    requires PendingIffBatch(s) && QuarantineHasReceipt(s) && PayloadsMatchReceipts(s) && Dequeues(s, key, s')
    ensures PendingIffBatch(s') && QuarantineHasReceipt(s') && PayloadsMatchReceipts(s')
  {
    assert key !in s.quarantine;
  }

  lemma DequeueKeepsSequences(s: State, key: Key, s': State)
    requires FifoIndexesBatches(s) && SequencesDistinct(s) && Dequeues(s, key, s')
    ensures SequencesDistinct(s')
  {
    var gone := s.batches[key].sequence;
    assert s.fifo[gone] == key;
    forall k | k in s'.batches ensures s.batches[k].sequence != gone {
      assert s.fifo[s.batches[k].sequence] == k;
    }
    hide FifoIndexesBatches;
  }

  lemma DequeueKeepsConsistency(s: State, key: Key, s': State)
    requires Consistent(s) && Dequeues(s, key, s')
    ensures Consistent(s')
  {
    DequeueKeepsIndex(s, key, s');
    DequeueKeepsReceipts(s, key, s');
    DequeueKeepsSequences(s, key, s');
    hide FifoIndexesBatches, PendingIffBatch, QuarantineHasReceipt, PayloadsMatchReceipts, SequencesDistinct;
  }

  /** A completion finds the receipt of the batch it completes. */
  lemma BatchHasReceipt(s: State, key: Key)
    requires Consistent(s)
    ensures key in s.batches ==> key in s.receipts
  {
  }

  lemma DeliveredKeepsConsistency(s: State, key: Key, at: Time)
    requires Consistent(s)
    ensures Consistent(DeliveredTx(s, key, at).After(s))
    ensures DeliveredTx(s, key, at).Abort? <==> key !in s.batches
    ensures DeliveredTx(s, key, at) != Abort(ReceiptMissing)
  {
    hide Consistent;
    BatchHasReceipt(s, key);
    if key in s.batches {
      DequeueKeepsConsistency(s, key, DeliveredTx(s, key, at).state);
    }
  }

  lemma QuarantinedKeepsConsistency(s: State, key: Key, errorClass: string, at: Time)
    requires Consistent(s)
    ensures Consistent(QuarantinedTx(s, key, errorClass, at).After(s))
    ensures QuarantinedTx(s, key, errorClass, at).Abort? <==> key !in s.batches
    ensures QuarantinedTx(s, key, errorClass, at) != Abort(ReceiptMissing)
  {
    hide Consistent;
    BatchHasReceipt(s, key);
    if key in s.batches {
      DequeueKeepsConsistency(s, key, QuarantinedTx(s, key, errorClass, at).state);
    }
  }

  lemma ReplayKeepsConsistency(s: State, key: Key, admitted: bool)
    requires Consistent(s)
    ensures Consistent(ReplayTx(s, key, admitted).After(s))
    ensures key in s.quarantine ==> key in s.receipts
  {
    if key in s.quarantine && admitted {
      ReplayIsEnqueue(s, key);
      EnqueueKeepsConsistency(s, key, Requeued(s.quarantine[key], s.counter + 1), RestoredReceipt(s, key));
    }
  }

  lemma ReplayIsEnqueue(s: State, key: Key)
    requires PendingIffBatch(s) && QuarantineHasReceipt(s) && PayloadsMatchReceipts(s) && key in s.quarantine
    ensures var batch, receipt := Requeued(s.quarantine[key], s.counter + 1), RestoredReceipt(s, key);
      && CanEnqueue(s, key, batch, receipt)
      && ReplayTx(s, key, true).state == Enqueue(s, key, batch, receipt)
  {
    assert Matches(key, s.quarantine[key], s.receipts[key]);
  }

  /** Collection drops terminal receipts and quarantined payloads, and nothing else. */
  ghost predicate Shrinks(s: State, s': State) {
    && s'.counter == s.counter && s'.batches == s.batches && s'.fifo == s.fifo
    && (forall k :: k in s'.receipts ==> k in s.receipts && s'.receipts[k] == s.receipts[k])
    && (forall k :: k in s.receipts && s.receipts[k].state.Pending? ==> k in s'.receipts)
    && (forall k :: k in s'.quarantine ==> k in s.quarantine && s'.quarantine[k] == s.quarantine[k])
    && (forall k :: k in s'.quarantine && k in s.receipts ==> k in s'.receipts)
  }

  lemma ShrinkKeepsReceipts(s: State, s': State)
    requires PendingIffBatch(s) && QuarantineHasReceipt(s) && PayloadsMatchReceipts(s) && Shrinks(s, s')
    ensures PendingIffBatch(s') && QuarantineHasReceipt(s') && PayloadsMatchReceipts(s')
  {
  }

  lemma ShrinkKeepsIndex(s: State, s': State)
    requires FifoIndexesBatches(s) && SequencesDistinct(s) && Shrinks(s, s')
    ensures FifoIndexesBatches(s') && SequencesDistinct(s')
  {
  }

  lemma ShrinkKeepsConsistency(s: State, s': State)
    requires Consistent(s) && Shrinks(s, s')
    ensures Consistent(s')
  {
    ShrinkKeepsReceipts(s, s');
    ShrinkKeepsIndex(s, s');
    hide FifoIndexesBatches, PendingIffBatch, QuarantineHasReceipt, PayloadsMatchReceipts, SequencesDistinct;
  }

  lemma CollectShrinks(s: State, now: Time, retention: Retention)
    requires QuarantineHasReceipt(s)
    ensures Shrinks(s, CollectTx(s, now, retention))
  {
    CappedIsSubmap(s.quarantine - ExpiredPayloads(s, now, retention), retention.maxQuarantine);
  }

  lemma CollectKeepsConsistency(s: State, now: Time, retention: Retention)
    requires Consistent(s)
    ensures Consistent(CollectTx(s, now, retention))
  {
    CollectShrinks(s, now, retention);
    hide Consistent;
    ShrinkKeepsConsistency(s, CollectTx(s, now, retention));
  }

  lemma {:induction false} CappedIsSubmap(q: map<Key, Batch>, maximum: nat)
    ensures forall k :: k in Capped(q, maximum) ==> k in q && Capped(q, maximum)[k] == q[k]
    decreases |q|
  {
    if |q| > maximum {
      CappedIsSubmap(q - {Oldest(q)}, maximum);
    }
  }

  // --- The abstract queue --------------------------------------------------

  ghost predicate CounterBoundsFifo(s: State) {
    forall q :: q in s.fifo ==> q <= s.counter
  }

  lemma ConsistentBoundsFifo(s: State)
    requires Consistent(s)
    ensures CounterBoundsFifo(s)
  {
    forall q | q in s.fifo ensures q <= s.counter {
      assert s.batches[s.fifo[q]].sequence == q;
    }
  }

  lemma QueueAt(s: State)
    ensures |Queue(s)| == |Ordered(s.fifo.Keys)|
    ensures forall i :: 0 <= i < |Queue(s)| ==>
      Ordered(s.fifo.Keys)[i] in s.fifo && Queue(s)[i] == s.fifo[Ordered(s.fifo.Keys)[i]]
    ensures s.fifo == map[] <==> Queue(s) == []
    ensures s.fifo != map[] ==> Queue(s)[0] == HeadKey(s)
  {
    OrderedEnumerates(s.fifo.Keys);
    if s.fifo != map[] {
      assert Ordered(s.fifo.Keys)[0] == Least(s.fifo.Keys);
    }
  }

  /** A FIFO entry always leads to its batch: the head can be read whenever the queue is not empty. */
  lemma HeadIsNeverMissing(s: State)
    requires Consistent(s)
    ensures Head(s).Some? <==> Queue(s) != []
    ensures Head(s).Some? ==> EnvelopeKey(Head(s).value.envelope) == Queue(s)[0] && Head(s).value.sequence == Least(s.fifo.Keys)
  {
    QueueAt(s);
    if s.fifo != map[] { HeadIsPending(s); }
  }

  /** The queue lists every pending key, and each one once. */
  lemma QueueListsPending(s: State)
    requires FifoIndexesBatches(s)
    ensures forall k :: k in Queue(s) <==> k in s.batches
    ensures forall i, j :: 0 <= i < j < |Queue(s)| ==> Queue(s)[i] != Queue(s)[j]
  {
    var order := Ordered(s.fifo.Keys);
    OrderedEnumerates(s.fifo.Keys);
    QueueAt(s);
    forall k | k in s.batches ensures k in Queue(s) {
      assert s.batches[k].sequence in s.fifo.Keys;
      var i :| 0 <= i < |order| && order[i] == s.batches[k].sequence;
      assert Queue(s)[i] == k;
    }
    forall i, j | 0 <= i < j < |Queue(s)| ensures Queue(s)[i] != Queue(s)[j] {
      assert order[i] < order[j] && order[i] in s.fifo && order[j] in s.fifo;
    }
  }

  /** Acceptance and replay append to the queue. */
  lemma EnqueueAppends(s: State, key: Key, batch: Batch, receipt: Receipt)
    requires CounterBoundsFifo(s) && batch.sequence == s.counter + 1
    ensures Queue(Enqueue(s, key, batch, receipt)) == Queue(s) + [key]
  {
    var s' := Enqueue(s, key, batch, receipt);
    OrderedAppend(s.fifo.Keys, batch.sequence);
    assert s'.fifo.Keys == s.fifo.Keys + {batch.sequence};
    QueueAt(s);
    QueueAt(s');
  }

  lemma AcceptAppends(s: State, env: Envelope, now: Time, admitted: bool)
    requires Consistent(s)
    ensures var tx := AcceptTx(s, env, now, admitted);
      Queue(tx.After(s)) ==
        if tx.Commit? && tx.reply.outcome.Accepted? then Queue(s) + [EnvelopeKey(env)] else Queue(s)
  {
    var tx := AcceptTx(s, env, now, admitted);
    if tx.Commit? && tx.reply.outcome.Accepted? {
      AcceptIsEnqueue(s, env, now);
      ConsistentBoundsFifo(s);
      EnqueueAppends(s, EnvelopeKey(env), FreshBatch(env, s.counter + 1, now), PendingReceipt(env, now));
    }
  }

  /** Removing the least FIFO key removes the front of the queue. */
  lemma DropHead(s: State, s': State)
    requires s.fifo != map[] && s'.fifo == s.fifo - {Least(s.fifo.Keys)}
    ensures Queue(s) == [HeadKey(s)] + Queue(s')
  {
    assert s'.fifo.Keys == s.fifo.Keys - {Least(s.fifo.Keys)};
    QueueAt(s);
    QueueAt(s');
  }

  lemma HeadIsPending(s: State)
    requires FifoIndexesBatches(s) && s.fifo != map[]
    ensures HeadKey(s) in s.batches && s.batches[HeadKey(s)].sequence == Least(s.fifo.Keys)
  {
  }

  /** Completing the head, either way, pops exactly the front of the queue. */
  lemma CompletionPopsHead(s: State, errorClass: string, at: Time)
    requires Consistent(s) && s.fifo != map[]
    ensures var key := HeadKey(s);
      && DeliveredTx(s, key, at).Commit? && QuarantinedTx(s, key, errorClass, at).Commit?
      && Queue(s) == [key] + Queue(DeliveredTx(s, key, at).state)
      && Queue(s) == [key] + Queue(QuarantinedTx(s, key, errorClass, at).state)
  {
    var key := HeadKey(s);
    HeadIsPending(s);
    DeliveredKeepsConsistency(s, key, at);
    QuarantinedKeepsConsistency(s, key, errorClass, at);
    DropHead(s, DeliveredTx(s, key, at).state);
    DropHead(s, QuarantinedTx(s, key, errorClass, at).state);
  }

  // --- Collection is exact -------------------------------------------------

  ghost predicate DistinctSequences(q: map<Key, Batch>) {
    forall k, k' :: k in q && k' in q && k != k' ==> q[k].sequence != q[k'].sequence
  }

  /** `r` is what remains of `q` when its lowest sequences above the cap are dropped. */
  ghost predicate KeepsNewest(q: map<Key, Batch>, r: map<Key, Batch>, maximum: nat) {
    && (forall k :: k in r ==> k in q && r[k] == q[k])
    && |r| == Min(|q|, maximum)
    && (forall k, j :: k in r && j in q && j !in r ==> q[j].sequence < q[k].sequence)
  }

  lemma {:induction false} CappedKeepsNewest(q: map<Key, Batch>, maximum: nat)
    requires DistinctSequences(q)
    ensures KeepsNewest(q, Capped(q, maximum), maximum)
    decreases |q|
  {
    if |q| > maximum {
      var rest := q - {Oldest(q)};
      CappedKeepsNewest(rest, maximum);
      KeepsNewestStep(q, Oldest(q), rest, Capped(rest, maximum), maximum);
    }
  }

  lemma KeepsNewestStep(q: map<Key, Batch>, oldest: Key, rest: map<Key, Batch>, r: map<Key, Batch>, maximum: nat)
    requires |q| > maximum && DistinctSequences(q) && IsOldest(q, oldest) && rest == q - {oldest}
    requires KeepsNewest(rest, r, maximum)
    ensures KeepsNewest(q, r, maximum)
  {
    assert |rest| == |q| - 1;
    forall k, j | k in r && j in q && j !in r ensures q[j].sequence < q[k].sequence {
      assert k in rest;
      if j != oldest { assert j in rest; }
    }
  }

  /** The cap and the order of eviction leave no freedom. */
  lemma {:induction false} KeepsNewestUnique(q: map<Key, Batch>, r: map<Key, Batch>, maximum: nat)
    requires DistinctSequences(q) && KeepsNewest(q, r, maximum)
    ensures r == Capped(q, maximum)
    decreases |q|
  {
    assert r.Keys <= q.Keys;
    if |q| <= maximum {
      SubsetOfSameSize(r.Keys, q.Keys);
    } else {
      var oldest := Oldest(q);
      OldestIsDropped(q, r, maximum, oldest);
      KeepsNewestUnique(q - {oldest}, r, maximum);
    }
  }

  lemma OldestIsDropped(q: map<Key, Batch>, r: map<Key, Batch>, maximum: nat, oldest: Key)
    requires |q| > maximum && KeepsNewest(q, r, maximum) && IsOldest(q, oldest)
    ensures oldest !in r
    ensures KeepsNewest(q - {oldest}, r, maximum)
  {
    assert |r.Keys| < |q.Keys| && q.Keys * r.Keys == r.Keys;
    assert |q.Keys - r.Keys| > 0;
    var j :| j in q.Keys - r.Keys;
    assert q[j].sequence >= q[oldest].sequence;
    assert |q - {oldest}| == |q| - 1;
  }

  lemma {:induction false} SubsetOfSameSize<T>(a: set<T>, b: set<T>)
    requires a <= b && |a| == |b|
    ensures a == b
  {
    assert |b - a| == |b| - |a|;
    assert b == a + (b - a);
  }

  /** The payloads that survive expiry, before the cap is applied. */
  ghost function Unexpired(s: State, now: Time, retention: Retention): map<Key, Batch> {
    s.quarantine - ExpiredKeys(s, now, retention)
  }

  lemma ExpiredPayloadsFollowReceipts(s: State, now: Time, retention: Retention)
    requires QuarantineHasReceipt(s) && SequencesDistinct(s)
    ensures s.quarantine - ExpiredPayloads(s, now, retention) == Unexpired(s, now, retention)
    ensures DistinctSequences(Unexpired(s, now, retention))
  {
  }

  lemma ExpiryKeepsDistinct(s: State, now: Time, retention: Retention)
    requires Consistent(s)
    ensures DistinctSequences(s.quarantine - ExpiredPayloads(s, now, retention))
  {
  }

  lemma QuarantineIsDistinct(s: State)
    requires Consistent(s)
    ensures DistinctSequences(s.quarantine)
  {
  }

  lemma CollectKeepsReceipts(s: State, now: Time, retention: Retention)
    ensures var s' := CollectTx(s, now, retention);
      && (forall k :: k in s'.receipts <==> k in s.receipts && !Expired(s.receipts[k], now, retention))
      && (forall k :: k in s'.receipts ==> s'.receipts[k] == s.receipts[k])
      && ExpiredKeys(s', now, retention) == {} && ExpiredPayloads(s', now, retention) == {}
  {
  }

  /** Delivered receipts go after the receipt retention, quarantined ones after the quarantine retention, pending ones never. */
  ghost predicate CollectedByAge(before: State, after: State, now: Time, retention: Retention) {
    forall key :: key in before.receipts ==>
      var r := before.receipts[key];
      key !in after.receipts <==>
        || (r.state.Delivered? && r.completedAt != ZERO_TIME && r.completedAt + retention.receipts <= now)
        || (r.state.Quarantined? && r.completedAt != ZERO_TIME && r.completedAt + retention.quarantine <= now)
  }

  lemma CollectGoesByAge(s: State, now: Time, retention: Retention)
    ensures CollectedByAge(s, CollectTx(s, now, retention), now, retention)
  {
    CollectKeepsReceipts(s, now, retention);
    hide CollectTx;
  }

  lemma CollectIsExact(s: State, now: Time, retention: Retention)
    requires Consistent(s)
    ensures var s' := CollectTx(s, now, retention);
      && Consistent(s')
      && s'.counter == s.counter && s'.batches == s.batches && s'.fifo == s.fifo
      // receipts: gone exactly when terminal and past the retention of their own kind
      && (forall k :: k in s'.receipts <==> k in s.receipts && !Expired(s.receipts[k], now, retention))
      && (forall k :: k in s'.receipts ==> s'.receipts[k] == s.receipts[k])
      // payloads: gone with their receipt, or for being among the oldest above the cap
      && KeepsNewest(Unexpired(s, now, retention), s'.quarantine, retention.maxQuarantine)
  {
    CollectKeepsConsistency(s, now, retention);
    CollectKeepsReceipts(s, now, retention);
    ExpiredPayloadsFollowReceipts(s, now, retention);
    CappedKeepsNewest(Unexpired(s, now, retention), retention.maxQuarantine);
  }

  /** A second collection at the same time finds nothing left to remove. */
  lemma CollectIsIdempotent(s: State, now: Time, retention: Retention)
    requires Consistent(s)
    ensures var s' := CollectTx(s, now, retention); CollectTx(s', now, retention) == s'
  {
    CollectKeepsReceipts(s, now, retention);
    CollectKeepsCap(s, now, retention);
    CollectNothing(CollectTx(s, now, retention), now, retention);
  }

  lemma CollectKeepsCap(s: State, now: Time, retention: Retention)
    requires QuarantineHasReceipt(s) && SequencesDistinct(s)
    ensures |CollectTx(s, now, retention).quarantine| <= retention.maxQuarantine
  {
    ExpiredPayloadsFollowReceipts(s, now, retention);
    CappedKeepsNewest(Unexpired(s, now, retention), retention.maxQuarantine);
  }

  /** A collection that shrinks neither table changed nothing at all. */
  lemma CollectedNothing(s: State, now: Time, retention: Retention)
    requires Consistent(s)
    requires var s' := CollectTx(s, now, retention);
      |s.receipts| - |s'.receipts| + |s.quarantine| - |s'.quarantine| == 0
    ensures CollectTx(s, now, retention) == s
  {
    CollectIsExact(s, now, retention);
    SubmapSize(CollectTx(s, now, retention).receipts, s.receipts);
    SubmapSize(CollectTx(s, now, retention).quarantine, s.quarantine);
  }

  lemma SubmapSize<T>(m: map<Key, T>, m': map<Key, T>)
    requires forall k :: k in m ==> k in m' && m[k] == m'[k]
    ensures |m| <= |m'|
    ensures |m| == |m'| ==> m == m'
  {
    assert m.Keys <= m'.Keys;
    assert |m'.Keys - m.Keys| == |m'.Keys| - |m.Keys|;
    if |m| == |m'| { SubsetOfSameSize(m.Keys, m'.Keys); }
  }

  lemma CollectNothing(s: State, now: Time, retention: Retention)
    requires ExpiredKeys(s, now, retention) == {} && ExpiredPayloads(s, now, retention) == {}
    requires |s.quarantine| <= retention.maxQuarantine
    ensures CollectTx(s, now, retention) == s
  {
    assert s.quarantine - {} == s.quarantine;
    assert s.receipts - {} == s.receipts;
  }

  // --- Replay --------------------------------------------------------------

  lemma {:induction false} AcceptanceOrderIsOrdered(q: map<Key, Batch>)
    requires DistinctSequences(q)
    ensures InAcceptanceOrder(AcceptanceOrder(q), q)
    decreases |q|
  {
    if q != map[] {
      var rest := q - {Oldest(q)};
      AcceptanceOrderIsOrdered(rest);
      OrderStartsWithOldest(q, Oldest(q), rest, AcceptanceOrder(rest));
    }
  }

  lemma OrderStartsWithOldest(q: map<Key, Batch>, oldest: Key, rest: map<Key, Batch>, tail: seq<Key>)
    requires DistinctSequences(q) && IsOldest(q, oldest) && rest == q - {oldest}
    requires InAcceptanceOrder(tail, rest)
    ensures InAcceptanceOrder([oldest] + tail, q)
  {
    var keys := [oldest] + tail;
    assert forall i :: 0 < i < |keys| ==> keys[i] == tail[i - 1] && keys[i] in rest;
    forall k | k in q ensures k in keys {
      if k == oldest {
        assert keys[0] == k;
      } else {
        assert k in rest;
        var i :| 0 <= i < |tail| && tail[i] == k;
        assert keys[i + 1] == k;
      }
    }
  }

  lemma {:induction false} AcceptanceOrderUnique(keys: seq<Key>, q: map<Key, Batch>)
    requires InAcceptanceOrder(keys, q)
    ensures keys == AcceptanceOrder(q)
    decreases |q|
  {
    if keys != [] { assert keys[0] in q; }
    if q != map[] {
      OldestIsFirst(keys, q, Oldest(q));
      AcceptanceOrderUnique(keys[1..], q - {Oldest(q)});
    }
  }

  lemma OldestIsFirst(keys: seq<Key>, q: map<Key, Batch>, oldest: Key)
    requires InAcceptanceOrder(keys, q) && IsOldest(q, oldest)
    ensures keys != [] && keys == [oldest] + keys[1..]
    ensures InAcceptanceOrder(keys[1..], q - {oldest})
  {
    assert oldest in keys;
    var i :| 0 <= i < |keys| && keys[i] == oldest;
    assert keys[0] in q;
    assert i == 0;
    TailInOrder(keys, q);
  }

  lemma TailInOrder(keys: seq<Key>, q: map<Key, Batch>)
    requires keys != [] && InAcceptanceOrder(keys, q)
    ensures InAcceptanceOrder(keys[1..], q - {keys[0]})
  {
    var tail, rest := keys[1..], q - {keys[0]};
    forall i | 0 <= i < |tail| ensures tail[i] in rest {
      assert q[keys[0]].sequence < q[keys[i + 1]].sequence;
    }
    forall k | k in rest ensures k in tail {
      assert k in keys;
      var j :| 0 <= j < |keys| && keys[j] == k;
      assert tail[j - 1] == k;
    }
    forall i, j | 0 <= i < j < |tail| ensures rest[tail[i]].sequence < rest[tail[j]].sequence {
      assert q[keys[i + 1]].sequence < q[keys[j + 1]].sequence;
    }
  }

  /** The i-th replayed key is back in the batch table with the i-th new sequence and a fresh budget. */
  ghost predicate RequeuedInOrder(q: map<Key, Batch>, counter: nat, batches: map<Key, Batch>, keys: seq<Key>) {
    forall i :: 0 <= i < |keys| ==>
      keys[i] in q && keys[i] in batches && batches[keys[i]] == Requeued(q[keys[i]], counter + 1 + i)
  }

  ghost predicate Extends(m: map<Key, Batch>, m': map<Key, Batch>) {
    forall k :: k in m ==> k in m' && m'[k] == m[k]
  }

  ghost predicate Without(q: map<Key, Batch>, q': map<Key, Batch>, keys: seq<Key>) {
    && (forall k :: k in q' <==> k in q && k !in keys)
    && (forall k :: k in q' ==> q'[k] == q[k])
  }

  ghost predicate Replayed(s: State, s': State, keys: seq<Key>) {
    && s'.counter == s.counter + |keys|
    && RequeuedInOrder(s.quarantine, s.counter, s'.batches, keys)
    && Extends(s.batches, s'.batches)
    && Without(s.quarantine, s'.quarantine, keys)
    && Queue(s') == Queue(s) + keys
  }

  ghost predicate DistinctKeysOf(keys: seq<Key>, q: map<Key, Batch>) {
    && (forall i :: 0 <= i < |keys| ==> keys[i] in q)
    && (forall i, j :: 0 <= i < j < |keys| ==> keys[i] != keys[j])
  }

  /** What replaying `keys` achieved, or why it changed nothing. */
  ghost predicate ReplayOutcome(s: State, keys: seq<Key>, admits: nat -> bool, replayed: nat, tx: Tx<nat>) {
    match tx
    case Abort(error) => error == StorageUnavailable && exists i :: replayed <= i < replayed + |keys| && !admits(i)
    case Commit(s', n) =>
      && n == replayed + |keys|
      && (forall i :: replayed <= i < replayed + |keys| ==> admits(i))
      && Consistent(s')
      && Replayed(s, s', keys)
  }

  lemma {:induction false} ReplayEachEffect(s: State, keys: seq<Key>, admits: nat -> bool, replayed: nat)
    requires Consistent(s) && DistinctKeysOf(keys, s.quarantine)
    ensures ReplayOutcome(s, keys, admits, replayed, ReplayEach(s, keys, admits, replayed))
    decreases |keys|
  {
    if keys == [] {
      ReplayNone(s, keys);
    } else if admits(replayed) {
      var next := ReplayTx(s, keys[0], true).state;
      ReplayOneEffect(s, keys[0]);
      TailKeysRemain(keys, s.quarantine);
      ReplayEachEffect(next, keys[1..], admits, replayed + 1);
      ReplayOutcomeCons(s, next, keys, admits, replayed, ReplayEach(next, keys[1..], admits, replayed + 1));
    }
  }

  lemma ReplayNone(s: State, keys: seq<Key>)
    requires keys == []
    ensures Replayed(s, s, keys)
  {
    assert Queue(s) + keys == Queue(s);
  }

  lemma TailKeysRemain(keys: seq<Key>, q: map<Key, Batch>)
    requires keys != [] && DistinctKeysOf(keys, q)
    ensures DistinctKeysOf(keys[1..], q - {keys[0]})
  {
  }

  lemma ReplayOutcomeCons(s: State, next: State, keys: seq<Key>, admits: nat -> bool, replayed: nat, tx: Tx<nat>)
    requires keys != [] && DistinctKeysOf(keys, s.quarantine) && admits(replayed)
    requires next.quarantine == s.quarantine - {keys[0]} && next.counter == s.counter + 1
    requires keys[0] !in s.batches
    requires next.batches == s.batches[keys[0] := Requeued(s.quarantine[keys[0]], s.counter + 1)]
    requires Queue(next) == Queue(s) + [keys[0]]
    requires ReplayOutcome(next, keys[1..], admits, replayed + 1, tx)
    ensures ReplayOutcome(s, keys, admits, replayed, tx)
  {
    if tx.Commit? {
      ReplayedCons(s, next, tx.state, keys);
    }
  }

  lemma ReplayOneEffect(s: State, key: Key)
    requires Consistent(s) && key in s.quarantine
    ensures ReplayTx(s, key, true).Commit?
    ensures var next := ReplayTx(s, key, true).state;
      && Consistent(next)
      && next.quarantine == s.quarantine - {key}
      && key !in s.batches
      && next.batches == s.batches[key := Requeued(s.quarantine[key], s.counter + 1)]
      && next.counter == s.counter + 1
      && Queue(next) == Queue(s) + [key]
  {
    ReplayKeepsConsistency(s, key, true);
    ReplayIsEnqueue(s, key);
    ConsistentBoundsFifo(s);
    EnqueueAppends(s, key, Requeued(s.quarantine[key], s.counter + 1), RestoredReceipt(s, key));
  }

  lemma ReplayedCons(s: State, next: State, s': State, keys: seq<Key>)
    requires keys != [] && keys[0] in s.quarantine
    requires next.quarantine == s.quarantine - {keys[0]} && next.counter == s.counter + 1
    requires keys[0] !in s.batches
    requires next.batches == s.batches[keys[0] := Requeued(s.quarantine[keys[0]], s.counter + 1)]
    requires Queue(next) == Queue(s) + [keys[0]]
    requires Replayed(next, s', keys[1..])
    ensures Replayed(s, s', keys)
  {
    hide Queue, RequeuedInOrder, Without, Extends;
    ExtendsAt(next.batches, s'.batches, keys[0]);
    RequeuedCons(s.quarantine, next.quarantine, s.counter, s'.batches, keys);
    ExtendsFurther(s.batches, keys[0], next.batches, s'.batches);
    WithoutCons(s.quarantine, next.quarantine, s'.quarantine, keys);
    AppendCons(Queue(s), keys);
  }

  lemma AppendCons<T>(a: seq<T>, b: seq<T>)
    requires b != []
    ensures a + [b[0]] + b[1..] == a + b
  {
    assert b == [b[0]] + b[1..];
  }

  lemma ExtendsAt(m: map<Key, Batch>, m': map<Key, Batch>, key: Key)
    requires Extends(m, m') && key in m
    ensures key in m' && m'[key] == m[key]
  {
  }

  lemma ExtendsFurther(m: map<Key, Batch>, key: Key, m': map<Key, Batch>, m'': map<Key, Batch>)
    requires key !in m && key in m' && m' == m[key := m'[key]] && Extends(m', m'')
    ensures Extends(m, m'')
  {
    assert forall k :: k in m ==> k in m' && m'[k] == m[k];
  }

  lemma WithoutCons(q: map<Key, Batch>, q': map<Key, Batch>, q'': map<Key, Batch>, keys: seq<Key>)
    requires keys != [] && q' == q - {keys[0]} && Without(q', q'', keys[1..])
    ensures Without(q, q'', keys)
  {
    assert forall k :: k in keys <==> k == keys[0] || k in keys[1..];
  }

  lemma RequeuedCons(q: map<Key, Batch>, q': map<Key, Batch>, counter: nat, batches: map<Key, Batch>, keys: seq<Key>)
    requires keys != [] && keys[0] in q && q' == q - {keys[0]}
    requires keys[0] in batches && batches[keys[0]] == Requeued(q[keys[0]], counter + 1)
    requires RequeuedInOrder(q', counter + 1, batches, keys[1..])
    ensures RequeuedInOrder(q, counter, batches, keys)
  {
    forall i | 0 <= i < |keys|
      ensures keys[i] in q && keys[i] in batches && batches[keys[i]] == Requeued(q[keys[i]], counter + 1 + i)
    {
      if i > 0 {
        assert keys[i] == keys[1..][i - 1];
      }
    }
  }

  /**
   Replaying all quarantined batches either changes nothing, when the guard
   refuses one of them, or yields the old queue followed by every quarantined
   key in acceptance order, each with a fresh attempt budget.
   */
  lemma ReplayAllAppendsInAcceptanceOrder(s: State, admits: nat -> bool)
    requires Consistent(s)
    ensures var keys, tx := AcceptanceOrder(s.quarantine), ReplayAllTx(s, admits);
      && InAcceptanceOrder(keys, s.quarantine) && |keys| == |s.quarantine|
      && ReplayOutcome(s, keys, admits, 0, tx)
      && (tx.Commit? <==> forall i :: 0 <= i < |keys| ==> admits(i))
      && (tx.Commit? ==> tx.state.quarantine == map[])
  {
    var keys := AcceptanceOrder(s.quarantine);
    AcceptanceOrderOf(s);
    ReplayEachEffect(s, keys, admits, 0);
    if ReplayAllTx(s, admits).Commit? {
      NothingLeft(s.quarantine, ReplayAllTx(s, admits).state.quarantine, keys);
    }
  }

  lemma ReplayAllKeepsConsistency(s: State, admits: nat -> bool)
    requires Consistent(s)
    ensures Consistent(ReplayAllTx(s, admits).After(s))
  {
    ReplayAllAppendsInAcceptanceOrder(s, admits);
  }

  lemma AcceptanceOrderOf(s: State)
    requires SequencesDistinct(s)
    ensures var keys := AcceptanceOrder(s.quarantine);
      InAcceptanceOrder(keys, s.quarantine) && |keys| == |s.quarantine| && DistinctKeysOf(keys, s.quarantine)
  {
    AcceptanceOrderIsOrdered(s.quarantine);
    AcceptanceOrderLength(s.quarantine);
  }

  lemma NothingLeft(q: map<Key, Batch>, q': map<Key, Batch>, keys: seq<Key>)
    requires InAcceptanceOrder(keys, q) && Without(q, q', keys)
    ensures q' == map[]
  {
  }

  lemma {:induction false} AcceptanceOrderLength(q: map<Key, Batch>)
    ensures |AcceptanceOrder(q)| == |q|
    decreases |q|
  {
    if q != map[] {
      AcceptanceOrderLength(q - {Oldest(q)});
    }
  }
}
