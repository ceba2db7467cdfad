/**
 The delivery worker beside the upload handlers and the collector, one atomic
 step at a time (worker.go, `Run`, `deliverHead`, `wait` and `Trigger`; server.go,
 the tail of `serveTrace`). A writer holds the store's lock from its commit to the
 end of its fsync; the worker's reads take no lock and may fall in between.
 */
module WorkerProtocol {
  import opened Prelude
  import opened Keys
  import opened Ordering
  import opened InboxModel
  import opened InboxInvariants
  import opened Backoff
  import opened Delivery
  import opened Drain

  datatype Lock = Free | HeldByHandler(id: nat) | HeldByWorker | HeldByCollector

  /** An upload between its commit and its trigger: still to be fsynced, or answered and about to trigger. */
  datatype Handler = Committed(key: Key) | Answered(key: Key)

  datatype WorkerState =
    | Looping
    | Peeked(batch: Batch, now: Time)
    | Sent(batch: Batch, attempt: Attempt)
    | Marking
    | FoundNothing
    | Planned(next: Time)
    | Parked(next: Time)
    | Stopped

  /**
   `orphans` are the keys whose upload failed its fsync since the worker last looked
   at the queue; `log` the sequences delivered or quarantined since the last crash.
   */
  datatype World = World(
    store: State, lock: Lock, slot: bool, worker: WorkerState,
    handlers: map<nat, Handler>, orphans: set<Key>, log: seq<nat>)

  datatype Step =
    | HandlerCommit(id: nat, env: Envelope, now: Time, admitted: bool)
    | HandlerSync(id: nat, ok: bool)
    | HandlerTrigger(id: nat)
    | WorkerPeek(now: Time)
    | WorkerSend(attempt: Attempt)
    | WorkerMark
    | WorkerSync(ok: bool)
    | WorkerReadRetry
    | WorkerPark(now: Time)
    | WorkerTakeTrigger
    | WorkerTimer
    | CollectorCommit(now: Time)
    | CollectorSync(ok: bool)
    | Restart
    | OfflineReplay(key: Key, admitted: bool)
    | OfflineReplayAll(admits: nat -> bool)
    | Crash(image: State)

  datatype Params = Params(config: Options, retention: Retention)

  ghost predicate ValidParams(p: Params) {
    p.config == Normalized(p.config)
  }

  ghost predicate Enabled(w: World, step: Step) {
    match step
    case HandlerCommit(id, _, _, _) => w.lock.Free? && id !in w.handlers
    case HandlerSync(id, _) => id in w.handlers && w.handlers[id].Committed?
    case HandlerTrigger(id) => id in w.handlers && w.handlers[id].Answered?
    case WorkerPeek(_) => w.worker.Looping?
    case WorkerSend(attempt) => w.worker.Peeked? && attempt.now == w.worker.now
    case WorkerMark => w.worker.Sent? && w.lock.Free?
    case WorkerSync(_) => w.worker.Marking?
    case WorkerReadRetry => w.worker.FoundNothing?
    case WorkerPark(_) => w.worker.Planned?
    case WorkerTakeTrigger => w.worker.Parked? && w.slot
    case WorkerTimer => w.worker.Parked? && w.worker.next != ZERO_TIME
    case CollectorCommit(_) => w.lock.Free?
    case CollectorSync(_) => w.lock.HeldByCollector?
    case Restart | OfflineReplay(_, _) | OfflineReplayAll(_) => w.lock.Free?
    case Crash(image) => Consistent(image)
  }

  /** A process that has just opened the store: no handlers, an empty slot, the worker at the top of its loop. */
  function Started(store: State, log: seq<nat>): World {
    World(store, Free, false, Looping, map[], {}, log)
  }

  ghost function AfterHandlerCommit(w: World, id: nat, env: Envelope, now: Time, admitted: bool): World {
    match AcceptTx(w.store, env, now, admitted)
    case Abort(_) => w
    case Commit(s, reply) =>
      if reply.outcome.Duplicate? then w.(handlers := w.handlers[id := Answered(EnvelopeKey(env))])
      else w.(store := s, lock := HeldByHandler(id), handlers := w.handlers[id := Committed(EnvelopeKey(env))])
  }

  ghost function AfterHandlerSync(w: World, id: nat, ok: bool): World
    requires id in w.handlers
  {
    var key := w.handlers[id].key;
    if ok then w.(lock := Free, handlers := w.handlers[id := Answered(key)])
    else w.(lock := Free, handlers := w.handlers - {id}, orphans := w.orphans + {key})
  }

  ghost function AfterPeek(w: World, now: Time): World {
    var head := Head(w.store);
    if Queue(w.store) != [] && head.None? then w.(worker := Stopped)
    else if head.None? || !Due(head.value, now) then w.(worker := FoundNothing, orphans := {})
    else w.(worker := Peeked(head.value, now), orphans := {})
  }

  ghost function AfterMark(w: World, p: Params): World
    requires w.worker.Sent? && ValidParams(p)
  {
    var batch, a := w.worker.batch, w.worker.attempt;
    match OutcomeTx(w.store, batch, a, p.config)
    case Abort(_) => w.(worker := Stopped)
    case Commit(s, _) =>
      var retried := Classify(a.status, a.sendFailed, batch.attempts, p.config.operatorRetryLimit).Retryable?;
      w.(store := s, lock := HeldByWorker, worker := Marking,
         log := if retried then w.log else w.log + [batch.sequence])
  }

  ghost function Apply(w: World, step: Step, p: Params): World
    requires Enabled(w, step) && ValidParams(p)
  {
    match step
    case HandlerCommit(id, env, now, admitted) => AfterHandlerCommit(w, id, env, now, admitted)
    case HandlerSync(id, ok) => AfterHandlerSync(w, id, ok)
    case HandlerTrigger(id) => w.(slot := true, handlers := w.handlers - {id})
    case WorkerPeek(now) => AfterPeek(w, now)
    case WorkerSend(attempt) => w.(worker := Sent(w.worker.batch, attempt))
    case WorkerMark => AfterMark(w, p)
    case WorkerSync(ok) => w.(lock := Free, worker := if ok then Looping else Stopped)
    case WorkerReadRetry =>
      var head := Head(w.store);
      if Queue(w.store) != [] && head.None? then w.(worker := Stopped)
      else w.(worker := Planned(if head.Some? then head.value.nextRetry else ZERO_TIME))
    case WorkerPark(now) =>
      var next := w.worker.next;
      w.(worker := if next != ZERO_TIME && next - now <= 0 then Looping else Parked(next))
    case WorkerTakeTrigger => w.(slot := false, worker := Looping)
    case WorkerTimer => w.(worker := Looping)
    case CollectorCommit(now) =>
      var s := CollectTx(w.store, now, p.retention);
      w.(store := s, lock := if s == w.store then Free else HeldByCollector)
    case CollectorSync(_) => w.(lock := Free)
    case Restart => Started(w.store, w.log)
    case OfflineReplay(key, admitted) => Started(ReplayTx(w.store, key, admitted).After(w.store), w.log)
    case OfflineReplayAll(admits) => Started(ReplayAllTx(w.store, admits).After(w.store), w.log)
    case Crash(image) => Started(image, [])
  }

  // --- What holds in every reachable world ---------------------------------

  ghost predicate LockAgrees(w: World) {
    && (forall id :: id in w.handlers && w.handlers[id].Committed? <==> w.lock == HeldByHandler(id))
    && (w.worker.Marking? <==> w.lock == HeldByWorker)
  }

  /** What the worker peeked is still the head, unchanged, until it marks it. */
  ghost predicate HeadStaysPeeked(w: World) {
    w.worker.Peeked? || w.worker.Sent? ==> Head(w.store) == Some(w.worker.batch)
  }

  /** An upload of `key` has yet to reach its trigger. */
  ghost predicate TriggerComing(handlers: map<nat, Handler>, key: Key) {
    exists id :: id in handlers && handlers[id].key == key
  }

  /** Whatever waits in the queue, something will wake the worker for it, or its upload failed since the last look. */
  ghost predicate Covered(w: World) {
    w.slot || forall k :: k in w.store.batches ==> k in w.orphans || TriggerComing(w.handlers, k)
  }

  ghost predicate HeadDelayed(s: State) {
    Head(s).Some? && Head(s).value.nextRetry != ZERO_TIME
  }

  ghost predicate NoWakeupLost(w: World) {
    && (w.worker.FoundNothing? ==> HeadDelayed(w.store) || Covered(w))
    && (w.worker.Planned? || w.worker.Parked? ==> w.worker.next != ZERO_TIME || Covered(w))
  }

  /** The completed sequences ascend, and everything still queued comes after them. */
  ghost predicate LogPrecedesQueue(log: seq<nat>, s: State) {
    && Ascending(log)
    && (forall i :: 0 <= i < |log| ==> log[i] <= s.counter)
    && (forall i, q :: 0 <= i < |log| && q in s.fifo ==> log[i] < q)
  }

  ghost predicate WorldOk(w: World) {
    && Consistent(w.store)
    && LockAgrees(w)
    && HeadStaysPeeked(w)
    && NoWakeupLost(w)
    && LogPrecedesQueue(w.log, w.store)
  }

  lemma StartedIsOk(store: State, log: seq<nat>)
    requires Consistent(store) && LogPrecedesQueue(log, store)
    ensures WorldOk(Started(store, log))
  {
    hide Consistent, LogPrecedesQueue;
  }

  // --- Handler steps -------------------------------------------------------

  /** An accepted upload goes behind the head and leaves every waiting batch as it was. */
  lemma AcceptKeepsHead(s: State, env: Envelope, now: Time)
    requires Consistent(s) && EnvelopeKey(env) !in s.receipts
    ensures var s' := AcceptTx(s, env, now, true).state;
      && (Head(s).Some? ==> Head(s') == Head(s))
      && (forall k :: k in s'.batches ==> k == EnvelopeKey(env) || k in s.batches)
  {
    HeadIsNeverMissing(s);
    AcceptAppends(s, env, now, true);
    PendingKeysHaveReceipts(s);
    hide Consistent, Queue;
  }

  lemma PendingKeysHaveReceipts(s: State)
    requires Consistent(s)
    ensures forall k :: k in s.batches ==> k in s.receipts
  {
  }

  lemma AcceptKeepsLog(log: seq<nat>, s: State, env: Envelope, now: Time)
    requires LogPrecedesQueue(log, s) && EnvelopeKey(env) !in s.receipts
    ensures LogPrecedesQueue(log, AcceptTx(s, env, now, true).state)
  {
  }

  lemma DuplicateKeepsOk(w: World, id: nat, key: Key)
    requires WorldOk(w) && id !in w.handlers
    ensures WorldOk(w.(handlers := w.handlers[id := Answered(key)]))
  {
    hide Consistent, Queue, LogPrecedesQueue, Head;
    TriggersStay(w.handlers, w.handlers[id := Answered(key)], id);
  }

  /** A new batch is covered by its own upload; the batches before it stay covered. */
  lemma NewBatchIsCovered(w: World, w': World, id: nat, key: Key)
    requires Covered(w) && id !in w.handlers
    requires w'.slot == w.slot && w'.orphans == w.orphans && w'.handlers == w.handlers[id := Committed(key)]
    requires forall k :: k in w'.store.batches ==> k == key || k in w.store.batches
    ensures Covered(w')
  {
    TriggersStay(w.handlers, w'.handlers, id);
    assert w'.handlers[id].key == key;
    assert TriggerComing(w'.handlers, key);
  }

  lemma StoreIsConsistent(w: World)
    requires WorldOk(w)
    ensures Consistent(w.store) && LogPrecedesQueue(w.log, w.store)
  {
    hide Consistent, LogPrecedesQueue;
  }

  /** An upload enters behind the head: nothing the worker knows changes. */
  lemma NewUploadKeepsPromises(w: World, w': World, id: nat, key: Key)
    requires LockAgrees(w) && HeadStaysPeeked(w) && NoWakeupLost(w) && w.lock.Free? && id !in w.handlers
    requires w'.lock == HeldByHandler(id) && w'.handlers == w.handlers[id := Committed(key)]
    requires w'.worker == w.worker && w'.slot == w.slot && w'.orphans == w.orphans
    requires Head(w.store).Some? ==> Head(w'.store) == Head(w.store)
    requires forall k :: k in w'.store.batches ==> k == key || k in w.store.batches
    ensures LockAgrees(w') && HeadStaysPeeked(w') && NoWakeupLost(w')
  {
    hide Head;
    if Covered(w) { NewBatchIsCovered(w, w', id, key); }
    hide Covered;
  }

  lemma NewUploadKeepsOk(w: World, w': World, id: nat, env: Envelope, now: Time)
    requires WorldOk(w) && w.lock.Free? && id !in w.handlers && EnvelopeKey(env) !in w.store.receipts
    requires w'.store == AcceptTx(w.store, env, now, true).state && w'.lock == HeldByHandler(id)
    requires w'.handlers == w.handlers[id := Committed(EnvelopeKey(env))]
    requires w'.worker == w.worker && w'.slot == w.slot && w'.orphans == w.orphans && w'.log == w.log
    ensures WorldOk(w')
  {
    hide Consistent, LogPrecedesQueue, Head, LockAgrees, HeadStaysPeeked, NoWakeupLost;
    AcceptKeepsConsistency(w.store, env, now, true);
    AcceptKeepsHead(w.store, env, now);
    AcceptKeepsLog(w.log, w.store, env, now);
    hide AcceptTx;
    NewUploadKeepsPromises(w, w', id, EnvelopeKey(env));
  }

  lemma HandlerCommitKeepsOk(w: World, id: nat, env: Envelope, now: Time, admitted: bool)
    requires WorldOk(w) && w.lock.Free? && id !in w.handlers
    ensures WorldOk(AfterHandlerCommit(w, id, env, now, admitted))
  {
    hide WorldOk;
    match AcceptTx(w.store, env, now, admitted)
    case Abort(_) =>
    case Commit(_, reply) =>
      if reply.outcome.Duplicate? { DuplicateKeepsOk(w, id, EnvelopeKey(env)); }
      else { NewUploadKeepsOk(w, AfterHandlerCommit(w, id, env, now, admitted), id, env, now); }
  }

  lemma TriggersStay(h: map<nat, Handler>, h': map<nat, Handler>, id: nat)
    requires id in h' && (id in h ==> h'[id].key == h[id].key)
    requires forall i :: i != id && i in h ==> i in h' && h'[i] == h[i]
    ensures forall k :: TriggerComing(h, k) ==> TriggerComing(h', k)
  {
    forall k | TriggerComing(h, k) ensures TriggerComing(h', k) {
      var i :| i in h && h[i].key == k;
      assert h'[i].key == k;
    }
  }

  lemma TriggersDrop(h: map<nat, Handler>, id: nat)
    requires id in h
    ensures forall k :: TriggerComing(h, k) ==> k == h[id].key || TriggerComing(h - {id}, k)
  {
    forall k | TriggerComing(h, k) ensures k == h[id].key || TriggerComing(h - {id}, k) {
      var i :| i in h && h[i].key == k;
      if i != id { assert (h - {id})[i].key == k; }
    }
  }

  lemma HandlerSyncKeepsOk(w: World, id: nat, ok: bool)
    requires WorldOk(w) && id in w.handlers && w.handlers[id].Committed?
    ensures WorldOk(AfterHandlerSync(w, id, ok))
  {
    hide Consistent, Queue, LogPrecedesQueue, Head;
    var w' := AfterHandlerSync(w, id, ok);
    assert w.lock == HeldByHandler(id);
    if ok {
      TriggersStay(w.handlers, w'.handlers, id);
    } else {
      TriggersDrop(w.handlers, id);
    }
  }

  // --- Worker steps --------------------------------------------------------

  lemma EmptyQueueIsCovered(w: World)
    requires Consistent(w.store) && Queue(w.store) == []
    ensures Covered(w)
  {
    QueueListsPending(w.store);
  }

  lemma PeekKeepsOk(w: World, now: Time)
    requires WorldOk(w) && w.worker.Looping?
    ensures WorldOk(AfterPeek(w, now))
    ensures !AfterPeek(w, now).worker.Stopped?
  {
    hide Consistent, Queue, LogPrecedesQueue, Head, Covered;
    HeadIsNeverMissing(w.store);
    var w' := AfterPeek(w, now);
    if Queue(w.store) == [] { EmptyQueueIsCovered(w'); }
  }

  lemma ReadRetryKeepsOk(w: World, p: Params)
    requires WorldOk(w) && w.worker.FoundNothing? && ValidParams(p)
    ensures WorldOk(Apply(w, WorkerReadRetry, p))
    ensures !Apply(w, WorkerReadRetry, p).worker.Stopped?
  {
    hide Consistent, Queue, LogPrecedesQueue, Head, Covered;
    HeadIsNeverMissing(w.store);
    var w' := Apply(w, WorkerReadRetry, p);
    CoveredByTheSame(w, w');
    if Queue(w.store) == [] { EmptyQueueIsCovered(w'); }
  }

  lemma CoveredByTheSame(w: World, w': World)
    requires w'.store.batches == w.store.batches && w'.slot == w.slot && w'.orphans == w.orphans && w'.handlers == w.handlers
    ensures Covered(w') <==> Covered(w)
  {
  }

  lemma MarkNeverAborts(w: World, p: Params)
    requires WorldOk(w) && w.worker.Sent? && ValidParams(p)
    ensures OutcomeTx(w.store, w.worker.batch, w.worker.attempt, p.config).Commit?
  {
    hide LogPrecedesQueue, NoWakeupLost, LockAgrees;
    OutcomeNeverAborts(w.store, w.worker.attempt, p.config);
  }

  /** Recording the outcome of the head logs a sequence below everything left in the queue. */
  lemma OutcomeKeepsLog(w: World, p: Params)
    requires WorldOk(w) && w.worker.Sent? && ValidParams(p)
    ensures LogPrecedesQueue(AfterMark(w, p).log, AfterMark(w, p).store)
  {
    var s, batch, a := w.store, w.worker.batch, w.worker.attempt;
    hide Consistent, Queue, LogPrecedesQueue, Classify, RetryAt;
    MarkNeverAborts(w, p);
    ConsistentBoundsFifo(s);
    HeadHasLeastSequence(s);
    var s' := AfterMark(w, p).store;
    if Classify(a.status, a.sendFailed, batch.attempts, p.config.operatorRetryLimit).Retryable? {
      SameFifoKeepsLog(w.log, s, s');
    } else {
      LogGrows(w.log, s, s', batch.sequence);
    }
  }

  lemma HeadHasLeastSequence(s: State)
    requires Consistent(s) && Head(s).Some?
    ensures var key, sequence := EnvelopeKey(Head(s).value.envelope), Head(s).value.sequence;
      && key in s.batches && s.batches[key] == Head(s).value
      && sequence in s.fifo && forall q :: q in s.fifo ==> sequence <= q
  {
    HeadIsNeverMissing(s);
    QueueAt(s);
  }

  lemma SameFifoKeepsLog(log: seq<nat>, s: State, s': State)
    requires LogPrecedesQueue(log, s) && s'.fifo == s.fifo && s'.counter == s.counter
    ensures LogPrecedesQueue(log, s')
  {
  }

  lemma LogGrows(log: seq<nat>, s: State, s': State, sequence: nat)
    requires LogPrecedesQueue(log, s) && CounterBoundsFifo(s)
    requires sequence in s.fifo && (forall q :: q in s.fifo ==> sequence <= q)
    requires s'.fifo == s.fifo - {sequence} && s'.counter == s.counter
    ensures LogPrecedesQueue(log + [sequence], s')
  {
  }

  lemma MarkKeepsOk(w: World, p: Params)
    requires WorldOk(w) && w.worker.Sent? && w.lock.Free? && ValidParams(p)
    ensures WorldOk(AfterMark(w, p))
  {
    hide Consistent, Queue, LogPrecedesQueue, OutcomeTx, Head, Classify;
    MarkNeverAborts(w, p);
    OutcomeKeepsLog(w, p);
    OutcomeKeepsConsistency(w.store, w.worker.batch, w.worker.attempt, p.config);
  }

  lemma OutcomeKeepsConsistency(s: State, batch: Batch, a: Attempt, config: Options)
    requires Consistent(s) && config == Normalized(config)
    ensures Consistent(OutcomeTx(s, batch, a, config).After(s))
  {
    hide Consistent, RetryAt, DeliveredTx, QuarantinedTx, RetryTx;
    var key := EnvelopeKey(batch.envelope);
    DeliveredKeepsConsistency(s, key, a.now);
    QuarantinedKeepsConsistency(s, key, ErrorClass(a.status), a.now);
    RetryKeepsConsistency(s, key, NextRetry(batch, a, config), RetryErrorClass(a.status, a.sendFailed));
  }

  // --- Collector, restarts and replays -------------------------------------

  lemma CollectKeepsOk(w: World, now: Time, p: Params)
    requires WorldOk(w) && w.lock.Free? && ValidParams(p)
    ensures WorldOk(Apply(w, CollectorCommit(now), p))
  {
    hide WorldOk, Consistent, SameQueue;
    StoreIsConsistent(w);
    CollectKeepsConsistency(w.store, now, p.retention);
    CollectKeepsQueue(w.store, now, p.retention);
    SameQueueKeepsOk(w, Apply(w, CollectorCommit(now), p));
  }

  lemma CollectKeepsQueue(s: State, now: Time, retention: Retention)
    ensures SameQueue(s, CollectTx(s, now, retention))
  {
  }

  ghost predicate SameQueue(s: State, s': State) {
    s'.batches == s.batches && s'.fifo == s.fifo && s'.counter == s.counter
  }

  /** Replacing the store by one with the same queue and batches disturbs nobody. */
  lemma SameQueueKeepsOk(w: World, w': World)
    requires WorldOk(w) && w.lock.Free? && Consistent(w'.store) && SameQueue(w.store, w'.store)
    requires w'.worker == w.worker && w'.slot == w.slot && w'.handlers == w.handlers
    requires w'.orphans == w.orphans && w'.log == w.log && (w'.lock.Free? || w'.lock.HeldByCollector?)
    ensures WorldOk(w')
  {
    SameQueueKeepsHead(w.store, w'.store);
    SameQueueKeepsLog(w.log, w.store, w'.store);
    SameHeadKeepsPromises(w, w');
    hide Consistent, Head, LogPrecedesQueue, HeadStaysPeeked, NoWakeupLost;
  }

  lemma SameHeadKeepsPromises(w: World, w': World)
    requires HeadStaysPeeked(w) && NoWakeupLost(w)
    requires Head(w'.store) == Head(w.store) && w'.store.batches == w.store.batches
    requires w'.worker == w.worker && w'.slot == w.slot && w'.handlers == w.handlers && w'.orphans == w.orphans
    ensures HeadStaysPeeked(w') && NoWakeupLost(w')
  {
    hide Head;
    CoveredByTheSame(w, w');
    hide Covered;
  }

  lemma SameQueueKeepsHead(s: State, s': State)
    requires SameQueue(s, s')
    ensures Head(s') == Head(s)
  {
    QueueDependsOnFifo(s, s');
    hide Queue;
  }

  lemma SameQueueKeepsLog(log: seq<nat>, s: State, s': State)
    requires LogPrecedesQueue(log, s) && SameQueue(s, s')
    ensures LogPrecedesQueue(log, s')
  {
  }

  lemma QueueDependsOnFifo(s: State, s': State)
    requires s'.fifo == s.fifo
    ensures Queue(s') == Queue(s)
  {
  }

  /** Replayed batches come after everything numbered before. */
  ghost predicate OnlyNewerAdded(s: State, s': State) {
    s.counter <= s'.counter && forall q :: q in s'.fifo ==> q in s.fifo || q > s.counter
  }

  lemma {:induction false} ReplayEachAddsNewer(s: State, keys: seq<Key>, admits: nat -> bool, replayed: nat)
    ensures OnlyNewerAdded(s, ReplayEach(s, keys, admits, replayed).After(s))
    decreases |keys|
  {
    if keys != [] && ReplayTx(s, keys[0], admits(replayed)).Commit? {
      ReplayEachAddsNewer(ReplayTx(s, keys[0], admits(replayed)).state, keys[1..], admits, replayed + 1);
    }
  }

  lemma NewerKeepsLog(log: seq<nat>, s: State, s': State)
    requires LogPrecedesQueue(log, s) && OnlyNewerAdded(s, s')
    ensures LogPrecedesQueue(log, s')
  {
  }

  // --- Every step ----------------------------------------------------------

  lemma HandlerStepKeepsOk(w: World, step: Step, p: Params)
    requires WorldOk(w) && Enabled(w, step) && ValidParams(p)
    requires step.HandlerCommit? || step.HandlerSync? || step.HandlerTrigger?
    ensures WorldOk(Apply(w, step, p))
  {
    hide WorldOk;
    match step
    case HandlerCommit(id, env, now, admitted) => HandlerCommitKeepsOk(w, id, env, now, admitted);
    case HandlerSync(id, ok) => HandlerSyncKeepsOk(w, id, ok);
    case HandlerTrigger(id) => TriggerKeepsOk(w, id);
  }

  lemma TriggerKeepsOk(w: World, id: nat)
    requires WorldOk(w) && id in w.handlers && w.handlers[id].Answered?
    ensures WorldOk(w.(slot := true, handlers := w.handlers - {id}))
  {
    hide Consistent, Queue, LogPrecedesQueue, Head;
  }

  lemma LocalWorkerStepKeepsOk(w: World, step: Step, p: Params)
    requires WorldOk(w) && Enabled(w, step) && ValidParams(p)
    requires step.WorkerSend? || step.WorkerSync? || step.WorkerPark? || step.WorkerTakeTrigger? || step.WorkerTimer?
          || step.CollectorSync?
    ensures WorldOk(Apply(w, step, p))
  {
    hide Consistent, Queue, LogPrecedesQueue, Head;
  }

  lemma OfflineReplayKeepsOk(w: World, key: Key, admitted: bool)
    requires Consistent(w.store) && LogPrecedesQueue(w.log, w.store)
    ensures WorldOk(Started(ReplayTx(w.store, key, admitted).After(w.store), w.log))
  {
    ReplayKeepsConsistency(w.store, key, admitted);
    ReplayAddsNewer(w.store, key, admitted);
    hide *;
    NewerKeepsLog(w.log, w.store, ReplayTx(w.store, key, admitted).After(w.store));
    StartedIsOk(ReplayTx(w.store, key, admitted).After(w.store), w.log);
  }

  lemma ReplayAddsNewer(s: State, key: Key, admitted: bool)
    ensures OnlyNewerAdded(s, ReplayTx(s, key, admitted).After(s))
  {
  }

  lemma OfflineReplayAllKeepsOk(w: World, admits: nat -> bool)
    requires Consistent(w.store) && LogPrecedesQueue(w.log, w.store)
    ensures WorldOk(Started(ReplayAllTx(w.store, admits).After(w.store), w.log))
  {
    ReplayAllKeepsConsistency(w.store, admits);
    ReplayEachAddsNewer(w.store, AcceptanceOrder(w.store.quarantine), admits, 0);
    hide Consistent, LogPrecedesQueue, OnlyNewerAdded, ReplayEach, AcceptanceOrder, WorldOk;
    NewerKeepsLog(w.log, w.store, ReplayAllTx(w.store, admits).After(w.store));
    StartedIsOk(ReplayAllTx(w.store, admits).After(w.store), w.log);
  }

  lemma EmptyLogPrecedes(s: State)
    ensures LogPrecedesQueue([], s)
  {
  }

  lemma RestartKeepsOk(w: World)
    requires Consistent(w.store) && LogPrecedesQueue(w.log, w.store)
    ensures WorldOk(Started(w.store, w.log))
  {
    hide *;
    StartedIsOk(w.store, w.log);
  }

  lemma CrashKeepsOk(image: State)
    requires Consistent(image)
    ensures WorldOk(Started(image, []))
  {
    hide *;
    EmptyLogPrecedes(image);
    StartedIsOk(image, []);
  }

  lemma StepKeepsOk(w: World, step: Step, p: Params)
    requires WorldOk(w) && Enabled(w, step) && ValidParams(p)
    ensures WorldOk(Apply(w, step, p))
  {
    StoreIsConsistent(w);
    hide WorldOk, Consistent, LogPrecedesQueue, Started, Queue, Head, ReplayTx, ReplayAllTx, AfterHandlerCommit, AfterHandlerSync;
    match step
    case HandlerCommit(_, _, _, _) | HandlerSync(_, _) | HandlerTrigger(_) => HandlerStepKeepsOk(w, step, p);
    case WorkerPeek(now) => PeekKeepsOk(w, now);
    case WorkerMark => MarkKeepsOk(w, p);
    case WorkerReadRetry => ReadRetryKeepsOk(w, p);
    case WorkerSend(_) | WorkerSync(_) | WorkerPark(_) | WorkerTakeTrigger | WorkerTimer | CollectorSync(_) =>
      LocalWorkerStepKeepsOk(w, step, p);
    case CollectorCommit(now) => CollectKeepsOk(w, now, p);
    case Restart => RestartKeepsOk(w);
    case OfflineReplay(key, admitted) => OfflineReplayKeepsOk(w, key, admitted);
    case OfflineReplayAll(admits) => OfflineReplayAllKeepsOk(w, admits);
    case Crash(image) => CrashKeepsOk(image);
  }

  // --- Whole interleavings -------------------------------------------------

  /** `steps` can be taken one after the other from `w`. */
  ghost predicate Possible(w: World, steps: seq<Step>, p: Params)
    requires ValidParams(p)
    decreases |steps|
  {
    steps == [] || (Enabled(w, steps[0]) && Possible(Apply(w, steps[0], p), steps[1..], p))
  }

  ghost function Reached(w: World, steps: seq<Step>, p: Params): World
    requires ValidParams(p) && Possible(w, steps, p)
    decreases |steps|
  {
    if steps == [] then w else Reached(Apply(w, steps[0], p), steps[1..], p)
  }

  lemma {:induction false} EveryReachedWorldIsOk(w: World, steps: seq<Step>, p: Params)
    requires WorldOk(w) && ValidParams(p) && Possible(w, steps, p)
    ensures WorldOk(Reached(w, steps, p))
    decreases |steps|
  {
    hide WorldOk, Enabled, Apply;
    if steps != [] {
      StepKeepsOk(w, steps[0], p);
      EveryReachedWorldIsOk(Apply(w, steps[0], p), steps[1..], p);
    }
  }

  /**
   No lost wakeup: when the worker sleeps without a timer and the slot is empty,
   every queued batch belongs to an upload that has yet to reach its trigger or
   whose fsync failed since the worker last looked at the queue.
   */
  lemma SleepingWorkerMissesNothing(store: State, steps: seq<Step>, p: Params)
    requires Consistent(store) && ValidParams(p) && Possible(Started(store, []), steps, p)
    ensures var w := Reached(Started(store, []), steps, p);
      w.worker == Parked(ZERO_TIME) && !w.slot ==>
        forall k :: k in Queue(w.store) ==> k in w.orphans || TriggerComing(w.handlers, k)
  {
    StartedIsOk(store, []);
    EveryReachedWorldIsOk(Started(store, []), steps, p);
    QueueListsPending(Reached(Started(store, []), steps, p).store);
    hide Consistent, Queue, Head, LogPrecedesQueue;
  }

  /** When the worker comes to record an outcome, the batch it sent is still the head and is found. */
  lemma MarkedBatchIsTheHead(store: State, steps: seq<Step>, p: Params)
    requires Consistent(store) && ValidParams(p) && Possible(Started(store, []), steps, p)
    requires Reached(Started(store, []), steps, p).worker.Sent?
    ensures var w := Reached(Started(store, []), steps, p);
      && Queue(w.store) != []
      && Queue(w.store)[0] == EnvelopeKey(w.worker.batch.envelope)
      && Queue(w.store)[0] in w.store.batches
      && w.store.batches[Queue(w.store)[0]] == w.worker.batch
      && OutcomeTx(w.store, w.worker.batch, w.worker.attempt, p.config).Commit?
  {
    StartedIsOk(store, []);
    EveryReachedWorldIsOk(Started(store, []), steps, p);
    var w := Reached(Started(store, []), steps, p);
    MarkNeverAborts(w, p);
    HeadIsNeverMissing(w.store);
    hide Consistent, Queue, LogPrecedesQueue, OutcomeTx;
  }

  /** Between crashes, restarts and offline replays included, batches complete in ascending sequence order. */
  lemma CompletionsAscend(store: State, steps: seq<Step>, p: Params)
    requires Consistent(store) && ValidParams(p) && Possible(Started(store, []), steps, p)
    ensures Ascending(Reached(Started(store, []), steps, p).log)
  {
    StartedIsOk(store, []);
    EveryReachedWorldIsOk(Started(store, []), steps, p);
    hide Consistent, Queue, Head;
  }

  /**
   A repeated upload of a queued batch refills the slot even though it writes
   nothing: the sleeping worker wakes and, if the head is due, peeks it.
   */
  lemma DuplicateUploadWakesWorker(w: World, env: Envelope, now: Time, admitted: bool, id: nat, later: Time, p: Params)
    requires WorldOk(w) && ValidParams(p) && w.lock.Free? && id !in w.handlers && w.worker.Parked?
    requires EnvelopeKey(env) in w.store.batches
    requires w.store.batches[EnvelopeKey(env)].envelope.payloadSha256 == env.payloadSha256
    ensures var steps := [HandlerCommit(id, env, now, admitted), HandlerTrigger(id), WorkerTakeTrigger, WorkerPeek(later)];
      && Possible(w, steps, p)
      && var w' := Reached(w, steps, p);
         && w'.store == w.store
         && Head(w.store).Some?
         && w'.worker == if Due(Head(w.store).value, later) then Peeked(Head(w.store).value, later) else FoundNothing
  {
    var steps := [HandlerCommit(id, env, now, admitted), HandlerTrigger(id), WorkerTakeTrigger, WorkerPeek(later)];
    hide WorldOk, Consistent, Queue, Head;
    StoreIsConsistent(w);
    PendingAnswersDuplicate(w.store, env, now, admitted);
    PendingMeansHead(w.store, EnvelopeKey(env));
    DuplicateUploadRefillsSlot(w, env, now, admitted, id, p);
    var w2 := w.(slot := true);
    var w3 := w.(slot := false, worker := Looping);
    FourSteps(w, w.(handlers := w.handlers[id := Answered(EnvelopeKey(env))]), w2, w3, steps, p);
  }

  /** The duplicate answer writes nothing, yet its trigger fills the slot. */
  lemma DuplicateUploadRefillsSlot(w: World, env: Envelope, now: Time, admitted: bool, id: nat, p: Params)
    requires w.lock.Free? && id !in w.handlers && ValidParams(p)
    requires AcceptTx(w.store, env, now, admitted).Commit? && AcceptTx(w.store, env, now, admitted).reply.outcome.Duplicate?
    ensures Apply(w, HandlerCommit(id, env, now, admitted), p) == w.(handlers := w.handlers[id := Answered(EnvelopeKey(env))])
    ensures Apply(w.(handlers := w.handlers[id := Answered(EnvelopeKey(env))]), HandlerTrigger(id), p) == w.(slot := true)
  {
    assert w.handlers[id := Answered(EnvelopeKey(env))] - {id} == w.handlers;
  }

  lemma PendingMeansHead(s: State, key: Key)
    requires Consistent(s) && key in s.batches
    ensures Head(s).Some? && Queue(s) != []
  {
    HeadIsNeverMissing(s);
    QueueListsPending(s);
  }

  lemma FourSteps(w: World, w1: World, w2: World, w3: World, steps: seq<Step>, p: Params)
    requires ValidParams(p) && |steps| == 4
    requires Enabled(w, steps[0]) && w1 == Apply(w, steps[0], p)
    requires Enabled(w1, steps[1]) && w2 == Apply(w1, steps[1], p)
    requires Enabled(w2, steps[2]) && w3 == Apply(w2, steps[2], p)
    requires Enabled(w3, steps[3])
    ensures Possible(w, steps, p) && Reached(w, steps, p) == Apply(w3, steps[3], p)
  {
    hide Enabled, Apply;
    var w4 := Apply(w3, steps[3], p);
    var last, lastTwo, lastThree := steps[3..], steps[2..], steps[1..];
    assert last[1..] == [] && lastTwo[1..] == last && lastThree[1..] == lastTwo;
    assert Possible(w4, [], p) && Reached(w4, [], p) == w4;
    assert Possible(w3, last, p) && Reached(w3, last, p) == w4;
    assert Possible(w2, lastTwo, p) && Reached(w2, lastTwo, p) == w4;
    assert Possible(w1, lastThree, p) && Reached(w1, lastThree, p) == w4;
  }

  /**
   Uploads whose fsync fails are the only exception, and a real one: such an
   upload leaves its batch in the queue of a worker that sleeps on.
   */
  lemma FailedFsyncWakesNobody(w: World, env: Envelope, now: Time, id: nat, p: Params)
    requires WorldOk(w) && ValidParams(p) && w.lock.Free? && id !in w.handlers
    requires w.worker == Parked(ZERO_TIME) && !w.slot && EnvelopeKey(env) !in w.store.receipts
    ensures var committed := Apply(w, HandlerCommit(id, env, now, true), p);
      && Enabled(committed, HandlerSync(id, false))
      && var w' := Apply(committed, HandlerSync(id, false), p);
         && w'.worker == Parked(ZERO_TIME) && !w'.slot && w'.lock.Free?
         && w'.handlers == w.handlers
         && Queue(w'.store) == Queue(w.store) + [EnvelopeKey(env)]
  {
    StoreIsConsistent(w);
    hide WorldOk, Consistent, Queue;
    AcceptAppends(w.store, env, now, true);
    assert w.handlers[id := Committed(EnvelopeKey(env))] - {id} == w.handlers;
  }

  lemma StepThen(w: World, step: Step, rest: seq<Step>, p: Params)
    requires ValidParams(p) && Enabled(w, step) && Possible(Apply(w, step, p), rest, p)
    ensures Possible(w, [step] + rest, p) && Reached(w, [step] + rest, p) == Reached(Apply(w, step, p), rest, p)
  {
    hide Enabled, Apply;
    assert ([step] + rest)[1..] == rest;
  }

  /** The worker of an empty inbox goes to sleep in three steps. */
  lemma EmptyInboxSleeps(t: Time, p: Params)
    requires ValidParams(p)
    ensures var w := Started(EMPTY, []); var asleep := w.(worker := Parked(ZERO_TIME));
      && Enabled(w, WorkerPeek(t)) && Apply(w, WorkerPeek(t), p) == w.(worker := FoundNothing)
      && Enabled(w.(worker := FoundNothing), WorkerReadRetry)
      && Apply(w.(worker := FoundNothing), WorkerReadRetry, p) == w.(worker := Planned(ZERO_TIME))
      && Enabled(w.(worker := Planned(ZERO_TIME)), WorkerPark(t))
      && Apply(w.(worker := Planned(ZERO_TIME)), WorkerPark(t), p) == asleep
      && WorldOk(asleep)
  {
    var w := Started(EMPTY, []);
    EmptyIsConsistent();
    EmptyLogPrecedes(EMPTY);
    StartedIsOk(EMPTY, []);
    HeadIsNeverMissing(EMPTY);
    assert Queue(EMPTY) == [] && Head(EMPTY).None?;
    hide Consistent, Queue, Head, LogPrecedesQueue;
    assert Covered(w.(worker := Parked(ZERO_TIME)));
  }

  /** A run from an empty inbox that ends with a queued batch behind a worker asleep, and nothing to wake it. */
  lemma FailedFsyncStrandsBatch(t: Time, id: nat, env: Envelope, now: Time, p: Params)
    requires ValidParams(p)
    ensures var steps := [WorkerPeek(t), WorkerReadRetry, WorkerPark(t), HandlerCommit(id, env, now, true), HandlerSync(id, false)];
      && Possible(Started(EMPTY, []), steps, p)
      && var w := Reached(Started(EMPTY, []), steps, p);
         && w.worker == Parked(ZERO_TIME) && !w.slot && w.lock.Free? && w.handlers == map[]
         && Queue(w.store) == [EnvelopeKey(env)] && w.orphans == {EnvelopeKey(env)}
  {
    var w0 := Started(EMPTY, []);
    var w1, w2, w3 := w0.(worker := FoundNothing), w0.(worker := Planned(ZERO_TIME)), w0.(worker := Parked(ZERO_TIME));
    EmptyInboxSleeps(t, p);
    FailedFsyncWakesNobody(w3, env, now, id, p);
    CommitOnEmpty(w3, id, env, now, p);
    var w4 := Apply(w3, HandlerCommit(id, env, now, true), p);
    var w5 := Apply(w4, HandlerSync(id, false), p);
    hide Enabled, Apply, Queue, WorldOk;
    assert Possible(w5, [], p) && Reached(w5, [], p) == w5;
    StepThen(w4, HandlerSync(id, false), [], p);
    StepThen(w3, HandlerCommit(id, env, now, true), [HandlerSync(id, false)], p);
    StepThen(w2, WorkerPark(t), [HandlerCommit(id, env, now, true), HandlerSync(id, false)], p);
    StepThen(w1, WorkerReadRetry, [WorkerPark(t), HandlerCommit(id, env, now, true), HandlerSync(id, false)], p);
    StepThen(w0, WorkerPeek(t), [WorkerReadRetry, WorkerPark(t), HandlerCommit(id, env, now, true), HandlerSync(id, false)], p);
    var steps := [WorkerPeek(t), WorkerReadRetry, WorkerPark(t), HandlerCommit(id, env, now, true), HandlerSync(id, false)];
    assert steps == [WorkerPeek(t)] + [WorkerReadRetry, WorkerPark(t), HandlerCommit(id, env, now, true), HandlerSync(id, false)];
  }

  lemma CommitOnEmpty(w: World, id: nat, env: Envelope, now: Time, p: Params)
    requires ValidParams(p) && w.lock.Free? && w.handlers == map[] && w.store == EMPTY && w.orphans == {}
    ensures Enabled(w, HandlerCommit(id, env, now, true))
    ensures var w' := Apply(w, HandlerCommit(id, env, now, true), p);
      Enabled(w', HandlerSync(id, false)) && Apply(w', HandlerSync(id, false), p).orphans == {EnvelopeKey(env)}
  {
    hide Queue;
  }

  // --- Coalescing of triggers ----------------------------------------------

  function Triggers(ids: seq<nat>): seq<Step> {
    if ids == [] then [] else [HandlerTrigger(ids[0])] + Triggers(ids[1..])
  }

  /** Uploads that all have been answered and not yet triggered. */
  ghost predicate AllAnswered(w: World, ids: seq<nat>) {
    && (forall i :: 0 <= i < |ids| ==> ids[i] in w.handlers && w.handlers[ids[i]].Answered?)
    && (forall i, j :: 0 <= i < j < |ids| ==> ids[i] != ids[j])
  }

  /** Any number of triggers fills the one slot and changes nothing else. */
  lemma {:induction false} TriggersFillSlot(w: World, ids: seq<nat>, p: Params)
    requires ValidParams(p) && AllAnswered(w, ids)
    ensures Possible(w, Triggers(ids), p)
    ensures Reached(w, Triggers(ids), p) == w.(slot := w.slot || ids != [], handlers := w.handlers - (set id | id in ids))
    decreases |ids|
  {
    if ids == [] {
      assert w.handlers - (set id | id in ids) == w.handlers;
    } else {
      var next := Apply(w, HandlerTrigger(ids[0]), p);
      TriggersFillSlot(next, ids[1..], p);
      StepThen(w, HandlerTrigger(ids[0]), Triggers(ids[1..]), p);
      assert ids == [ids[0]] + ids[1..];
      assert w.handlers - {ids[0]} - (set id | id in ids[1..]) == w.handlers - (set id | id in ids);
    }
  }

  lemma {:induction false} ReachedConcat(w: World, a: seq<Step>, b: seq<Step>, p: Params)
    requires ValidParams(p) && Possible(w, a, p) && Possible(Reached(w, a, p), b, p)
    ensures Possible(w, a + b, p) && Reached(w, a + b, p) == Reached(Reached(w, a, p), b, p)
    decreases |a|
  {
    hide Enabled, Apply;
    if a == [] {
      assert a + b == b;
    } else {
      assert (a + b)[0] == a[0] && (a + b)[1..] == a[1..] + b;
      ReachedConcat(Apply(w, a[0], p), a[1..], b, p);
    }
  }

  /**
   However many uploads trigger while the worker sleeps, it wakes once: taking the
   trigger empties the slot, so nothing is left to wake it a second time.
   */
  lemma TriggersCoalesce(w: World, ids: seq<nat>, p: Params)
    requires ValidParams(p) && AllAnswered(w, ids) && ids != [] && w.worker.Parked?
    ensures var steps := Triggers(ids) + [WorkerTakeTrigger];
      && Possible(w, steps, p)
      && var w' := Reached(w, steps, p);
         && w'.worker == Looping && w'.store == w.store
         && forall next :: !Enabled(w'.(worker := Parked(next)), WorkerTakeTrigger)
  {
    TriggersFillSlot(w, ids, p);
    var filled := Reached(w, Triggers(ids), p);
    assert Possible(Apply(filled, WorkerTakeTrigger, p), [], p);
    StepThen(filled, WorkerTakeTrigger, [], p);
    assert [WorkerTakeTrigger] + [] == [WorkerTakeTrigger];
    ReachedConcat(w, Triggers(ids), [WorkerTakeTrigger], p);
  }

  // --- What becomes of a trigger -------------------------------------------

  /** The slot is full, or the worker is at the top of its loop and about to look at the queue. */
  predicate WillLook(w: World) {
    w.slot || w.worker.Looping?
  }

  lemma StepKeepsTrigger(w: World, step: Step, p: Params)
    requires ValidParams(p) && Enabled(w, step) && WillLook(w) && !step.WorkerPeek?
    ensures WillLook(Apply(w, step, p))
  {
    hide Queue, Head, AcceptTx, CollectTx, OutcomeTx, ReplayTx, ReplayAllTx;
  }

  /**
   A trigger is never wasted: a retry time that is already due lets the worker go on
   without taking it, a wait takes it only to return to the loop, and so it stays
   good until the worker next looks at the queue, whatever else happens.
   */
  lemma {:induction false} TriggerHoldsUntilLook(w: World, steps: seq<Step>, p: Params)
    requires ValidParams(p) && Possible(w, steps, p) && WillLook(w)
    requires forall i :: 0 <= i < |steps| ==> !steps[i].WorkerPeek?
    ensures WillLook(Reached(w, steps, p))
    decreases |steps|
  {
    hide Enabled, Apply, WillLook;
    if steps != [] {
      StepKeepsTrigger(w, steps[0], p);
      TriggerHoldsUntilLook(Apply(w, steps[0], p), steps[1..], p);
    }
  }

  /** When a wait ends at once it leaves the trigger alone; when it blocks, a full slot wakes it. */
  lemma DueRetryKeepsTrigger(w: World, now: Time, p: Params)
    requires ValidParams(p) && w.worker.Planned?
    ensures var w' := Apply(w, WorkerPark(now), p);
      && w'.slot == w.slot && w'.store == w.store
      && (w'.worker == Looping <==> w.worker.next != ZERO_TIME && w.worker.next <= now)
      && (w'.worker != Looping && w.slot ==> Enabled(w', WorkerTakeTrigger) && Apply(w', WorkerTakeTrigger, p).worker == Looping)
  {
  }

  lemma PendingAnswersDuplicate(s: State, env: Envelope, now: Time, admitted: bool)
    requires Consistent(s) && EnvelopeKey(env) in s.batches
    requires s.batches[EnvelopeKey(env)].envelope.payloadSha256 == env.payloadSha256
    ensures AcceptTx(s, env, now, admitted).Commit? && AcceptTx(s, env, now, admitted).reply.outcome.Duplicate?
  {
  }
}
