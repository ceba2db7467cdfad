/**
 The durable inbox as a transition system over its five buckets (store.go).
 Every function here is the effect of one bbolt transaction: it either commits
 a new value of all buckets or aborts and leaves them as they were.
 */
module InboxModel {
  import opened Prelude
  import opened Keys
  import opened Ordering

  datatype TraceHeaders = TraceHeaders(sessionId: string, entrypoint: string, runId: string, schemaVersion: string)

  datatype Envelope = Envelope(
    accountId: string, sessionId: string, installationId: string, batchId: string,
    payloadSha256: string, payload: seq<byte>, headers: TraceHeaders)

  datatype Batch = Batch(
    envelope: Envelope, sequence: nat, acceptedAt: Time,
    attempts: nat, lastError: string, nextRetry: Time)

  datatype ReceiptState = Pending | Delivered | Quarantined

  datatype Receipt = Receipt(
    accountId: string, batchId: string, payloadSha256: string, acceptedAt: Time,
    state: ReceiptState, completedAt: Time, errorClass: string)

  datatype State = State(
    counter: nat,
    batches: map<Key, Batch>,
    fifo: map<nat, Key>,
    receipts: map<Key, Receipt>,
    quarantine: map<Key, Batch>)

  datatype Error =
    | InvalidEnvelope | Cancelled | Closed | IdempotencyConflict | StorageUnavailable
    | BatchNotFound | MissingBatch | ReceiptMissing | RetryTimeRequired | ErrorClassRequired | SyncFailed
    | PathRequired | NegativeOption | OpenFailed | InitialiseFailed

  datatype Outcome = Accepted | Duplicate

  datatype AcceptResult = AcceptResult(batchId: string, outcome: Outcome, acceptedAt: Time)

  /** One transaction: the new contents of the buckets, or why it rolled back. */
  datatype Tx<+R> = Commit(state: State, reply: R) | Abort(error: Error)
  {
    /** The buckets after the transaction, whichever way it went. */
    function After(before: State): State {
      if Commit? then state else before
    }
  }

  const EMPTY := State(0, map[], map[], map[], map[])

  // --- Admission -----------------------------------------------------------

  predicate IsLowerHexDigit(c: char) {
    '0' <= c <= '9' || 'a' <= c <= 'f'
  }

  predicate ValidEnvelope(env: Envelope) {
    && env.accountId != "" && env.batchId != ""
    && NulFree(env.accountId) && NulFree(env.batchId)
    && |env.payloadSha256| == 64
    && forall i :: 0 <= i < |env.payloadSha256| ==> IsLowerHexDigit(env.payloadSha256[i])
  }

  function EnvelopeKey(env: Envelope): Key {
    ReceiptKey(env.accountId, env.batchId)
  }

  function FreshBatch(env: Envelope, sequence: nat, now: Time): Batch {
    Batch(env, sequence, now, 0, "", ZERO_TIME)
  }

  function PendingReceipt(env: Envelope, acceptedAt: Time): Receipt {
    Receipt(env.accountId, env.batchId, env.payloadSha256, acceptedAt, Pending, ZERO_TIME, "")
  }

  /** `admitted` is the storage guard's answer, asked only for a new key. */
  function AcceptTx(s: State, env: Envelope, now: Time, admitted: bool): Tx<AcceptResult> {
    var key := EnvelopeKey(env);
    if key in s.receipts then
      if s.receipts[key].payloadSha256 != env.payloadSha256 then Abort(IdempotencyConflict)
      else Commit(s, AcceptResult(env.batchId, Duplicate, s.receipts[key].acceptedAt))
    else if !admitted then Abort(StorageUnavailable)
    else
      var sequence := s.counter + 1;
      Commit(
        State(sequence,
              s.batches[key := FreshBatch(env, sequence, now)],
              s.fifo[sequence := key],
              s.receipts[key := PendingReceipt(env, now)],
              s.quarantine),
        AcceptResult(env.batchId, Accepted, now))
  }

  // --- Completion of one delivery attempt ----------------------------------

  function RetryTx(s: State, key: Key, nextRetry: Time, lastError: string): Tx<()> {
    if key !in s.batches then Abort(BatchNotFound)
    else
      var batch := s.batches[key];
      var delayed := batch.(attempts := batch.attempts + 1, lastError := lastError, nextRetry := nextRetry);
      Commit(s.(batches := s.batches[key := delayed]), ())
  }

  function Completed(receipt: Receipt, state: ReceiptState, at: Time, errorClass: string): Receipt {
    receipt.(state := state, completedAt := at, errorClass := errorClass)
  }

  function DeliveredTx(s: State, key: Key, at: Time): Tx<()> {
    if key !in s.batches then Abort(BatchNotFound)
    else if key !in s.receipts then Abort(ReceiptMissing)
    else
      Commit(
        s.(batches := s.batches - {key},
           fifo := s.fifo - {s.batches[key].sequence},
           receipts := s.receipts[key := Completed(s.receipts[key], Delivered, at, "")]),
        ())
  }

  function QuarantinedTx(s: State, key: Key, errorClass: string, at: Time): Tx<()> {
    if key !in s.batches then Abort(BatchNotFound)
    else if key !in s.receipts then Abort(ReceiptMissing)
    else
      Commit(
        s.(batches := s.batches - {key},
           fifo := s.fifo - {s.batches[key].sequence},
           quarantine := s.quarantine[key := s.batches[key]],
           receipts := s.receipts[key := Completed(s.receipts[key], Quarantined, at, errorClass)]),
        ())
  }

  // --- Collection ----------------------------------------------------------

  datatype Retention = Retention(receipts: nat, quarantine: nat, maxQuarantine: nat)

  /** The options of the store; zero selects a default. */
  datatype StoreOptions = StoreOptions(
    receiptRetention: int, quarantineRetention: int, maxQuarantine: int,
    maxDbBytes: int, minFreeBytes: int, allocSize: int, openTimeout: int)
  {
    predicate Negative() {
      || receiptRetention < 0 || quarantineRetention < 0 || maxQuarantine < 0
      || maxDbBytes < 0 || minFreeBytes < 0 || allocSize < 0 || openTimeout < 0
    }
  }

  const DEFAULT_RECEIPT_RETENTION: nat := 30 * 24 * 3600 * 1_000_000_000
  const DEFAULT_MAX_QUARANTINE: nat := 1000

  /** Every retention in force is positive, and an option that was set is kept. */
  function RetentionOf(o: StoreOptions): (r: Retention)
    requires !o.Negative()
    ensures r.receipts > 0 && r.quarantine > 0 && r.maxQuarantine > 0
    ensures o.receiptRetention > 0 ==> r.receipts == o.receiptRetention
    ensures o.quarantineRetention > 0 ==> r.quarantine == o.quarantineRetention
    ensures o.quarantineRetention == 0 ==> r.quarantine == r.receipts
    ensures o.maxQuarantine > 0 ==> r.maxQuarantine == o.maxQuarantine
  {
    var receipts := if o.receiptRetention == 0 then DEFAULT_RECEIPT_RETENTION else o.receiptRetention;
    Retention(receipts,
              if o.quarantineRetention == 0 then receipts else o.quarantineRetention,
              if o.maxQuarantine == 0 then DEFAULT_MAX_QUARANTINE else o.maxQuarantine)
  }

  /** A terminal receipt that has outlived the retention of its own kind. */
  predicate Expired(receipt: Receipt, now: Time, retention: Retention) {
    && receipt.completedAt != ZERO_TIME
    && match receipt.state
       case Pending => false
       case Delivered => receipt.completedAt <= now - retention.receipts
       case Quarantined => receipt.completedAt <= now - retention.quarantine
  }

  ghost function ExpiredKeys(s: State, now: Time, retention: Retention): set<Key> {
    set k | k in s.receipts && Expired(s.receipts[k], now, retention)
  }

  ghost function ExpiredPayloads(s: State, now: Time, retention: Retention): set<Key> {
    set k | k in s.receipts && k in s.quarantine && s.receipts[k].state.Quarantined? && Expired(s.receipts[k], now, retention)
  }

  /** No payload in `q` was accepted before the one at `key`. */
  ghost predicate IsOldest(q: map<Key, Batch>, key: Key) {
    key in q && forall k :: k in q ==> q[key].sequence <= q[k].sequence
  }

  lemma {:induction false} OldestExists(q: map<Key, Batch>)
    requires q != map[]
    ensures exists k :: IsOldest(q, k)
    decreases |q|
  {
    var y :| y in q;
    var rest := q - {y};
    if rest == map[] {
      assert forall k :: k in q ==> k == y || k in rest;
      assert IsOldest(q, y);
    } else {
      OldestExists(rest);
      var m :| IsOldest(rest, m);
      assert forall k :: k in q ==> k == y || (k in rest && rest[k] == q[k]);
      assert IsOldest(q, if q[y].sequence < q[m].sequence then y else m);
    }
  }

  ghost function Oldest(q: map<Key, Batch>): (key: Key)
    requires q != map[]
    ensures IsOldest(q, key)
  {
    OldestExists(q);
    var k :| IsOldest(q, k);
    k
  }

  /** The payloads left when the oldest ones above the cap are dropped one by one. */
  ghost function Capped(q: map<Key, Batch>, maximum: nat): map<Key, Batch>
    decreases |q|
  {
    if |q| <= maximum then q else Capped(q - {Oldest(q)}, maximum)
  }

  ghost function CollectTx(s: State, now: Time, retention: Retention): State {
    s.(receipts := s.receipts - ExpiredKeys(s, now, retention),
       quarantine := Capped(s.quarantine - ExpiredPayloads(s, now, retention), retention.maxQuarantine))
  }

  // --- Replay of quarantined payloads --------------------------------------

  function Requeued(batch: Batch, sequence: nat): Batch {
    batch.(sequence := sequence, attempts := 0, lastError := "", nextRetry := ZERO_TIME)
  }

  function RestoredReceipt(s: State, key: Key): Receipt
    requires key in s.quarantine
  {
    if key in s.receipts then Completed(s.receipts[key], Pending, ZERO_TIME, "")
    else PendingReceipt(s.quarantine[key].envelope, s.quarantine[key].acceptedAt)
  }

  function ReplayTx(s: State, key: Key, admitted: bool): Tx<()> {
    if key !in s.quarantine then Abort(BatchNotFound)
    else if !admitted then Abort(StorageUnavailable)
    else
      var sequence := s.counter + 1;
      Commit(
        State(sequence,
              s.batches[key := Requeued(s.quarantine[key], sequence)],
              s.fifo[sequence := key],
              s.receipts[key := RestoredReceipt(s, key)],
              s.quarantine - {key}),
        ())
  }

  /** Replays `keys` from the first to the last; `admits(i)` is the guard's i-th answer. */
  function ReplayEach(s: State, keys: seq<Key>, admits: nat -> bool, replayed: nat): Tx<nat>
    decreases |keys|
  {
    if keys == [] then Commit(s, replayed)
    else match ReplayTx(s, keys[0], admits(replayed))
      case Abort(error) => Abort(error)
      case Commit(next, _) => ReplayEach(next, keys[1..], admits, replayed + 1)
  }

  /** The quarantined keys, oldest acceptance first. */
  ghost function AcceptanceOrder(q: map<Key, Batch>): seq<Key>
    decreases |q|
  {
    if q == map[] then [] else [Oldest(q)] + AcceptanceOrder(q - {Oldest(q)})
  }

  ghost function ReplayAllTx(s: State, admits: nat -> bool): Tx<nat> {
    ReplayEach(s, AcceptanceOrder(s.quarantine), admits, 0)
  }

  // --- The abstract queue --------------------------------------------------

  ghost function KeysAt(fifo: map<nat, Key>, order: seq<nat>): seq<Key>
    requires forall i :: 0 <= i < |order| ==> order[i] in fifo
  {
    seq(|order|, i requires 0 <= i < |order| => fifo[order[i]])
  }

  /** The pending keys in the order in which the worker will send them. */
  ghost function Queue(s: State): seq<Key> {
    OrderedEnumerates(s.fifo.Keys);
    KeysAt(s.fifo, Ordered(s.fifo.Keys))
  }

  /** `keys` lists the quarantined keys in the order of their original acceptance. */
  ghost predicate InAcceptanceOrder(keys: seq<Key>, q: map<Key, Batch>) {
    && (forall i :: 0 <= i < |keys| ==> keys[i] in q)
    && (forall k :: k in q ==> k in keys)
    && (forall i, j :: 0 <= i < j < |keys| ==> q[keys[i]].sequence < q[keys[j]].sequence)
  }

  // --- Reads ---------------------------------------------------------------

  /** The head of the FIFO, as `Cursor().First()` followed by the batch lookup finds it. */
  ghost function HeadKey(s: State): Key
    requires s.fifo != map[]
  {
    s.fifo[Least(s.fifo.Keys)]
  }

  ghost function Head(s: State): Option<Batch> {
    if Queue(s) != [] && Queue(s)[0] in s.batches then Some(s.batches[Queue(s)[0]]) else None
  }

  /** Whether a batch may be sent at `now`. */
  predicate Due(batch: Batch, now: Time) {
    batch.nextRetry == ZERO_TIME || batch.nextRetry <= now
  }

  // --- The invariant across the buckets ------------------------------------

  ghost predicate FifoIndexesBatches(s: State) {
    && (forall q :: q in s.fifo ==> s.fifo[q] in s.batches && s.batches[s.fifo[q]].sequence == q)
    && (forall k :: k in s.batches ==> s.batches[k].sequence in s.fifo && s.fifo[s.batches[k].sequence] == k)
  }

  ghost predicate PendingIffBatch(s: State) {
    forall k :: k in s.batches <==> k in s.receipts && s.receipts[k].state.Pending?
  }

  ghost predicate QuarantineHasReceipt(s: State) {
    forall k :: k in s.quarantine ==> k in s.receipts && s.receipts[k].state.Quarantined?
  }

  /** A stored payload and its receipt describe the same acceptance. */
  ghost predicate Matches(k: Key, batch: Batch, receipt: Receipt) {
    && EnvelopeKey(batch.envelope) == k
    && batch.envelope.accountId == receipt.accountId
    && batch.envelope.batchId == receipt.batchId
    && batch.envelope.payloadSha256 == receipt.payloadSha256
    && batch.acceptedAt == receipt.acceptedAt
  }

  ghost predicate PayloadsMatchReceipts(s: State)
    requires PendingIffBatch(s) && QuarantineHasReceipt(s)
  {
    && (forall k :: k in s.batches ==> Matches(k, s.batches[k], s.receipts[k]))
    && (forall k :: k in s.quarantine ==> Matches(k, s.quarantine[k], s.receipts[k]))
  }

  ghost predicate SequencesDistinct(s: State) {
    && (forall k :: k in s.batches ==> 1 <= s.batches[k].sequence <= s.counter)
    && (forall k :: k in s.quarantine ==> 1 <= s.quarantine[k].sequence <= s.counter)
    && (forall k, k' :: k in s.batches && k' in s.quarantine ==> s.batches[k].sequence != s.quarantine[k'].sequence)
    && (forall k, k' :: k in s.quarantine && k' in s.quarantine && k != k' ==> s.quarantine[k].sequence != s.quarantine[k'].sequence)
  }

  ghost predicate PendingIsIncomplete(s: State) {
    forall k :: k in s.receipts && s.receipts[k].state.Pending? ==>
      s.receipts[k].completedAt == ZERO_TIME && s.receipts[k].errorClass == ""
  }

  ghost predicate ReceiptsKeyedById(s: State) {
    forall k :: k in s.receipts ==> ReceiptKey(s.receipts[k].accountId, s.receipts[k].batchId) == k
  }

  ghost predicate Consistent(s: State) {
    && ReceiptsKeyedById(s)
    && FifoIndexesBatches(s)
    && PendingIffBatch(s)
    && QuarantineHasReceipt(s)
    && PayloadsMatchReceipts(s)
    && SequencesDistinct(s)
    && PendingIsIncomplete(s)
  }
}
