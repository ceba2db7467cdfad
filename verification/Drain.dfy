/** Runs of the delivery loop, and how many sends empty the queue (worker.go, `Run`). */
module Drain {
  import opened Prelude
  import opened Keys
  import opened InboxModel
  import opened InboxInvariants
  import opened BoltStore
  import opened Backoff
  import opened Delivery

  /** One pass of the loop: the head is sent if it is due, and the outcome recorded. */
  ghost function Deliver(s: State, a: Attempt, config: Options): State
    requires config == Normalized(config)
  {
    if Head(s).None? || !Due(Head(s).value, a.now) then s
    else OutcomeTx(s, Head(s).value, a, config).After(s)
  }

  ghost function Sends(s: State, attempts: seq<Attempt>, config: Options): State
    requires config == Normalized(config)
    decreases |attempts|
  {
    if attempts == [] then s
    else Deliver(Sends(s, attempts[..|attempts| - 1], config), attempts[|attempts| - 1], config)
  }

  // --- The loop ------------------------------------------------------------

  /**
   What the environment does in one pass: cancellation (before the pass, inside a
   transaction, or by the time an error is looked at), the answer, the fsync, a wake-up.
   */
  datatype Round = Round(
    ctx: Context, cancelledLater: bool, attempt: Attempt, syncOk: bool, triggered: bool, wokenAt: Time)
  {
    /** The context is cancelled by the time the loop looks at an error of this pass. */
    predicate Cancelled() {
      ctx.cancelledBefore || ctx.cancelledInside || cancelledLater
    }
  }

  function AttemptsOf(rounds: seq<Round>): seq<Attempt> {
    seq(|rounds|, i requires 0 <= i < |rounds| => rounds[i].attempt)
  }

  /** A pass that finds the head of `s` due records its outcome durably; any other has nothing to record. */
  ghost predicate Recorded(s: State, round: Round) {
    Head(s).Some? && Due(Head(s).value, round.attempt.now) ==> round.syncOk && !round.ctx.cancelledInside
  }

  ghost function StateBefore(s: State, rounds: seq<Round>, i: nat, config: Options): State
    requires i <= |rounds| && config == Normalized(config)
  {
    Sends(s, AttemptsOf(rounds[..i]), config)
  }

  /**
   The loop for as many passes as the environment allows. `served` passes were
   recorded in the store, in order; a pass that ends the loop may still have been
   recorded, when only its fsync failed. A cancelled context ends the loop without
   a failure, whatever error it caused.
   */
  method Run(worker: Worker, rounds: seq<Round>) returns (failure: Option<Error>, ghost served: nat)
    requires worker.store.Valid() && worker.config == Normalized(worker.config)
    requires forall i :: 0 <= i < |rounds| ==> Sane(rounds[i].attempt)
    modifies worker`slot, worker.store
    ensures worker.store.Valid()
    ensures served <= |rounds|
    ensures worker.store.View() == StateBefore(old(worker.store.View()), rounds, served, worker.config)
    ensures worker.store.closed == old(worker.store.closed)
    // why the loop ends: the rounds are over, a pass is cancelled, the store is closed, or an fsync failed
    ensures failure.None? ==>
      served == |rounds| || rounds[served].Cancelled() || (served > 0 && rounds[served - 1].Cancelled())
    ensures failure.Some? ==> failure.value in {Closed, SyncFailed}
    ensures failure == Some(Closed) ==> worker.store.closed && served < |rounds| && !rounds[served].Cancelled()
    ensures failure == Some(SyncFailed) ==> 0 < served && !rounds[served - 1].syncOk && !rounds[served - 1].Cancelled()
    // the loop goes on only after a pass that recorded durably what it had to record
    ensures forall i :: 0 <= i < served && (i + 1 < served || (failure.None? && !rounds[i].Cancelled())) ==>
      Recorded(StateBefore(old(worker.store.View()), rounds, i, worker.config), rounds[i])
    // with an open store, no failed fsync and no cancellation, every pass is served
    ensures !worker.store.closed && (forall i :: 0 <= i < |rounds| ==> rounds[i].syncOk && !rounds[i].Cancelled()) ==>
      failure.None? && served == |rounds|
  {
    hide Consistent, Deliver, Recorded, Sends;
    assert AttemptsOf(rounds[..0]) == [];
    NoSends(worker.store.View(), worker.config);
    var i := 0;
    ghost var s := worker.store.View();
    while i < |rounds|
      invariant 0 <= i <= |rounds|
      invariant worker.store.Valid()
      invariant worker.store.closed == old(worker.store.closed)
      invariant worker.store.View() == StateBefore(s, rounds, i, worker.config)
      invariant forall j :: 0 <= j < i ==> Recorded(StateBefore(s, rounds, j, worker.config), rounds[j])
    {
      var round := rounds[i];
      if round.ctx.cancelledBefore { return None, i; }
      SendsNext(s, rounds, i, worker.config);
      var delivered := DeliverOnce(worker, round);
      if delivered.Err? {
        served := if delivered.error.SyncFailed? then i + 1 else i;
        if round.Cancelled() { return None, served; }
        return Some(delivered.error), served;
      }
      if !delivered.value {
        HeadIsNeverMissing(worker.store.View());
        var next := worker.store.NextRetryAt(round.ctx.cancelledInside);
        if next.Err? {
          assert next.error == Cancelled;
          return None, i + 1;
        }
        var blocked := worker.Wait(next.value, round.wokenAt, round.triggered && worker.slot);
      }
      i := i + 1;
    }
    assert rounds[..i] == rounds;
    return None, i;
  }

  lemma NoSends(s: State, config: Options)
    requires config == Normalized(config)
    ensures Sends(s, [], config) == s
  {
  }

  lemma SendsNext(s: State, rounds: seq<Round>, i: nat, config: Options)
    requires i < |rounds| && config == Normalized(config)
    ensures Sends(s, AttemptsOf(rounds[..i + 1]), config) == Deliver(Sends(s, AttemptsOf(rounds[..i]), config), rounds[i].attempt, config)
  {
    var attempts := AttemptsOf(rounds[..i + 1]);
    assert attempts[..|attempts| - 1] == AttemptsOf(rounds[..i]);
  }

  /** `deliverHead`, told as one step of the model: errors other than a failed fsync leave the store as it was. */
  method DeliverOnce(worker: Worker, round: Round) returns (r: Result<bool, Error>)
    requires worker.store.Valid() && worker.config == Normalized(worker.config) && Sane(round.attempt)
    requires !round.ctx.cancelledBefore
    modifies worker.store
    ensures worker.store.Valid()
    ensures r.Ok? || r == Err(SyncFailed) ==>
      worker.store.View() == Deliver(old(worker.store.View()), round.attempt, worker.config)
    ensures r.Err? && r.error != SyncFailed ==> worker.store.View() == old(worker.store.View())
    ensures worker.store.closed == old(worker.store.closed)
    ensures r.Ok? ==> !worker.store.closed && Recorded(old(worker.store.View()), round)
    ensures r.Err? ==>
      || (r.error == Closed && worker.store.closed)
      || (r.error == SyncFailed && !round.syncOk)
      || (r.error == Cancelled && round.ctx.cancelledInside)
  {
    OutcomeNeverAborts(worker.store.View(), round.attempt, worker.config);
    hide Consistent, OutcomeTx;
    r := worker.DeliverHead(round.ctx, round.attempt, round.syncOk);
  }

  /** The batch the worker peeked is there to be marked. */
  lemma OutcomeNeverAborts(s: State, a: Attempt, config: Options)
    requires Consistent(s) && config == Normalized(config)
    ensures Head(s).Some? ==> OutcomeTx(s, Head(s).value, a, config).Commit?
  {
    hide Consistent, Queue, RetryAt;
    HeadIsNeverMissing(s);
    if Head(s).Some? {
      DeliveredKeepsConsistency(s, Queue(s)[0], a.now);
      QuarantinedKeepsConsistency(s, Queue(s)[0], ErrorClass(a.status), a.now);
    }
  }

  // --- Termination of the drain --------------------------------------------

  /** How many more retryable answers the batches allow, plus one final send each. */
  ghost function Work(keys: seq<Key>, batches: map<Key, Batch>, budget: Key -> nat): nat {
    if keys == [] then 0
    else
      var key := keys[0];
      var used := if key in batches then batches[key].attempts else 0;
      1 + Max(budget(key) - used, 0) + Work(keys[1..], batches, budget)
  }

  ghost function WorkLeft(s: State, budget: Key -> nat): nat {
    Work(Queue(s), s.batches, budget)
  }

  lemma {:induction false} WorkDependsOnAttempts(keys: seq<Key>, m: map<Key, Batch>, m': map<Key, Batch>, budget: Key -> nat)
    requires forall i :: 0 <= i < |keys| ==>
      (keys[i] in m <==> keys[i] in m') && (keys[i] in m ==> m[keys[i]].attempts == m'[keys[i]].attempts)
    ensures Work(keys, m, budget) == Work(keys, m', budget)
  {
    if keys != [] {
      WorkDependsOnAttempts(keys[1..], m, m', budget);
    }
  }

  /** What one recorded outcome does to the queue and the batch table. */
  ghost predicate HeadMoved(s: State, s': State, retried: bool) {
    && Queue(s) != [] && Queue(s)[0] in s.batches
    && var key := Queue(s)[0];
       if retried then
         && Queue(s') == Queue(s)
         && key in s'.batches && s'.batches == s.batches[key := s'.batches[key]]
         && s'.batches[key].attempts == s.batches[key].attempts + 1
       else Queue(s') == Queue(s)[1..] && s'.batches == s.batches - {key}
  }

  lemma DeliveredMovesHead(s: State, at: Time)
    requires Consistent(s) && Queue(s) != []
    ensures HeadMoved(s, DeliveredTx(s, Queue(s)[0], at).After(s), false)
    ensures Consistent(DeliveredTx(s, Queue(s)[0], at).After(s))
  {
    QueueAt(s);
    CompletionPopsHead(s, "", at);
    DeliveredKeepsConsistency(s, Queue(s)[0], at);
    hide Consistent, Queue;
  }

  lemma QuarantinedMovesHead(s: State, errorClass: string, at: Time)
    requires Consistent(s) && Queue(s) != []
    ensures HeadMoved(s, QuarantinedTx(s, Queue(s)[0], errorClass, at).After(s), false)
    ensures Consistent(QuarantinedTx(s, Queue(s)[0], errorClass, at).After(s))
  {
    QueueAt(s);
    CompletionPopsHead(s, errorClass, at);
    QuarantinedKeepsConsistency(s, Queue(s)[0], errorClass, at);
    hide Consistent, Queue;
  }

  lemma RetriedMovesHead(s: State, at: Time, errorClass: string)
    requires Consistent(s) && Queue(s) != []
    ensures HeadMoved(s, RetryTx(s, Queue(s)[0], at, errorClass).After(s), true)
    ensures Consistent(RetryTx(s, Queue(s)[0], at, errorClass).After(s))
  {
    HeadIsNeverMissing(s);
    RetryKeepsConsistency(s, Queue(s)[0], at, errorClass);
    RetryKeepsQueue(s, Queue(s)[0], at, errorClass);
    hide Consistent, Queue;
  }

  lemma OutcomeMovesHead(s: State, a: Attempt, config: Options)
    requires Consistent(s) && config == Normalized(config) && Head(s).Some?
    ensures var s' := OutcomeTx(s, Head(s).value, a, config).After(s);
      Consistent(s') &&
      HeadMoved(s, s', Classify(a.status, a.sendFailed, Head(s).value.attempts, config.operatorRetryLimit).Retryable?)
  {
    HeadIsNeverMissing(s);
    hide Consistent, Queue, HeadMoved, DeliveredTx, QuarantinedTx, RetryTx, RetryAt;
    match Classify(a.status, a.sendFailed, Head(s).value.attempts, config.operatorRetryLimit)
    case Success => DeliveredMovesHead(s, a.now);
    case Permanent => QuarantinedMovesHead(s, ErrorClass(a.status), a.now);
    case Retryable => RetriedMovesHead(s, NextRetry(Head(s).value, a, config), RetryErrorClass(a.status, a.sendFailed));
  }

  lemma SendMovesHead(s: State, a: Attempt, config: Options)
    requires Consistent(s) && config == Normalized(config)
    requires Head(s).Some? && Due(Head(s).value, a.now)
    ensures var s' := Deliver(s, a, config);
      Consistent(s') &&
      HeadMoved(s, s', Classify(a.status, a.sendFailed, Head(s).value.attempts, config.operatorRetryLimit).Retryable?)
  {
    OutcomeMovesHead(s, a, config);
    hide Consistent, Queue, Head, HeadMoved, OutcomeTx, Classify;
  }

  lemma RetryKeepsQueue(s: State, key: Key, at: Time, errorClass: string)
    ensures Queue(RetryTx(s, key, at, errorClass).After(s)) == Queue(s)
  {
  }

  /** The answer does not retry a batch that has used up its budget. */
  ghost predicate WithinBudget(s: State, a: Attempt, config: Options, budget: Key -> nat) {
    Head(s).Some? && Head(s).value.attempts >= budget(Queue(s)[0]) ==>
      !Classify(a.status, a.sendFailed, Head(s).value.attempts, config.operatorRetryLimit).Retryable?
  }

  lemma HeadMovedUsesWork(s: State, s': State, retried: bool, budget: Key -> nat)
    requires HeadMoved(s, s', retried)
    requires forall i, j :: 0 <= i < j < |Queue(s)| ==> Queue(s)[i] != Queue(s)[j]
    requires retried ==> s.batches[Queue(s)[0]].attempts < budget(Queue(s)[0])
    ensures WorkLeft(s', budget) < WorkLeft(s, budget)
    ensures retried || s.batches[Queue(s)[0]].attempts >= budget(Queue(s)[0]) ==>
      WorkLeft(s', budget) == WorkLeft(s, budget) - 1
  {
    hide Queue;
    var keys := Queue(s);
    assert forall i :: 0 <= i < |keys[1..]| ==> keys[1..][i] != keys[0];
    WorkDependsOnAttempts(keys[1..], s.batches, s'.batches, budget);
  }

  /** Every send of a due head uses up work: at least one unit, exactly one if the head is retried or has none to spare. */
  lemma SendUsesWork(s: State, a: Attempt, config: Options, budget: Key -> nat)
    requires Consistent(s) && config == Normalized(config)
    requires Head(s).Some? && Due(Head(s).value, a.now)
    requires WithinBudget(s, a, config, budget)
    ensures var s', head := Deliver(s, a, config), Head(s).value;
      var retried := Classify(a.status, a.sendFailed, head.attempts, config.operatorRetryLimit).Retryable?;
      && Consistent(s')
      && WorkLeft(s', budget) < WorkLeft(s, budget)
      && (retried || head.attempts >= budget(Queue(s)[0]) ==> WorkLeft(s', budget) == WorkLeft(s, budget) - 1)
      // the lexicographic reading: the queue gets shorter, or its head comes closer to its budget
      && (|Queue(s')| < |Queue(s)|
          || (Queue(s') == Queue(s) && Head(s').Some? && Head(s').value.attempts == head.attempts + 1 <= budget(Queue(s)[0])))
  {
    SendMovesHead(s, a, config);
    QueueListsPending(s);
    hide Consistent, Queue, Deliver, Classify, WorkLeft;
    HeadMovedUsesWork(s, Deliver(s, a, config),
                      Classify(a.status, a.sendFailed, Head(s).value.attempts, config.operatorRetryLimit).Retryable?, budget);
  }

  /** Each pass finds the head due: the clock has been moved to its persisted retry time. */
  ghost predicate ClockKeepsUp(s: State, attempts: seq<Attempt>, config: Options)
    requires config == Normalized(config)
  {
    forall n :: 0 <= n < |attempts| ==>
      var before := Sends(s, attempts[..n], config);
      Head(before).Some? ==> Due(Head(before).value, attempts[n].now)
  }

  ghost predicate FinitelyRetried(s: State, attempts: seq<Attempt>, config: Options, budget: Key -> nat)
    requires config == Normalized(config)
  {
    forall n :: 0 <= n < |attempts| ==> WithinBudget(Sends(s, attempts[..n], config), attempts[n], config, budget)
  }

  lemma PrefixKeepsUp(s: State, attempts: seq<Attempt>, config: Options, budget: Key -> nat, n: nat)
    requires config == Normalized(config) && n <= |attempts|
    requires ClockKeepsUp(s, attempts, config) && FinitelyRetried(s, attempts, config, budget)
    ensures ClockKeepsUp(s, attempts[..n], config) && FinitelyRetried(s, attempts[..n], config, budget)
  {
    forall m | 0 <= m < n ensures attempts[..n][..m] == attempts[..m] && attempts[..n][m] == attempts[m] { }
  }

  lemma IdleWhenEmpty(s: State, a: Attempt, config: Options)
    requires Consistent(s) && config == Normalized(config) && Queue(s) == []
    ensures Deliver(s, a, config) == s
  {
    HeadIsNeverMissing(s);
  }

  lemma EmptyIffNoWork(s: State, budget: Key -> nat)
    ensures Queue(s) == [] <==> WorkLeft(s, budget) == 0
  {
  }

  /**
   With no arrivals, if every batch gets only finitely many retryable answers,
   the queue is empty after at most as many sends as there is work.
   */
  lemma {:induction false} DrainTerminates(s: State, attempts: seq<Attempt>, config: Options, budget: Key -> nat)
    requires Consistent(s) && config == Normalized(config)
    requires ClockKeepsUp(s, attempts, config) && FinitelyRetried(s, attempts, config, budget)
    ensures Consistent(Sends(s, attempts, config))
    ensures WorkLeft(Sends(s, attempts, config), budget) <= Max(WorkLeft(s, budget) - |attempts|, 0)
    ensures |attempts| >= WorkLeft(s, budget) ==> Queue(Sends(s, attempts, config)) == []
    decreases |attempts|
  {
    hide Consistent, Queue, Deliver, WithinBudget, WorkLeft;
    EmptyIffNoWork(Sends(s, attempts, config), budget);
    if attempts != [] {
      var n := |attempts| - 1;
      PrefixKeepsUp(s, attempts, config, budget, n);
      DrainTerminates(s, attempts[..n], config, budget);
      var before := Sends(s, attempts[..n], config);
      HeadIsNeverMissing(before);
      EmptyIffNoWork(before, budget);
      if Queue(before) == [] {
        IdleWhenEmpty(before, attempts[n], config);
      } else {
        SendUsesWork(before, attempts[n], config, budget);
      }
    }
  }

  /** Fresh work for an upstream that only gives operator-fixable rejections. */
  function OperatorBudget(config: Options): Key -> nat
    requires config == Normalized(config)
  {
    (key: Key) => config.operatorRetryLimit - 1
  }

  ghost predicate OnlyOperatorFixable(attempts: seq<Attempt>) {
    forall i :: 0 <= i < |attempts| ==> OperatorFixable(attempts[i].status) && !attempts[i].sendFailed
  }

  ghost predicate WithinOperatorLimit(s: State, config: Options) {
    forall k :: k in s.batches ==> s.batches[k].attempts < config.operatorRetryLimit
  }

  lemma OperatorSendUsesOne(s: State, a: Attempt, config: Options)
    requires Consistent(s) && config == Normalized(config) && WithinOperatorLimit(s, config)
    requires Head(s).Some? && Due(Head(s).value, a.now)
    requires OperatorFixable(a.status) && !a.sendFailed
    ensures var s' := Deliver(s, a, config);
      && Consistent(s') && WithinOperatorLimit(s', config)
      && WorkLeft(s', OperatorBudget(config)) == WorkLeft(s, OperatorBudget(config)) - 1
  {
    HeadIsNeverMissing(s);
    SendMovesHead(s, a, config);
    hide Consistent, Queue, Deliver;
    SendUsesWork(s, a, config, OperatorBudget(config));
  }

  /** Whether the batches waiting in the queue have had no attempt yet. */
  ghost predicate AllFresh(s: State) {
    forall k :: k in s.batches ==> s.batches[k].attempts == 0
  }

  lemma {:induction false} FreshWork(keys: seq<Key>, batches: map<Key, Batch>, limit: nat, budget: Key -> nat)
    requires limit > 0 && forall k :: budget(k) == limit - 1
    requires forall i :: 0 <= i < |keys| ==> keys[i] in batches && batches[keys[i]].attempts == 0
    ensures Work(keys, batches, budget) == |keys| * limit
  {
    if keys != [] {
      FreshWork(keys[1..], batches, limit, budget);
    }
  }

  lemma {:induction false} OperatorRunUsesWork(s: State, attempts: seq<Attempt>, config: Options)
    requires Consistent(s) && config == Normalized(config) && WithinOperatorLimit(s, config)
    requires ClockKeepsUp(s, attempts, config) && OnlyOperatorFixable(attempts)
    requires |attempts| <= WorkLeft(s, OperatorBudget(config))
    ensures var s' := Sends(s, attempts, config);
      && Consistent(s') && WithinOperatorLimit(s', config)
      && WorkLeft(s', OperatorBudget(config)) == WorkLeft(s, OperatorBudget(config)) - |attempts|
    decreases |attempts|
  {
    hide Consistent, Queue, Deliver, WithinOperatorLimit;
    if attempts != [] {
      var n := |attempts| - 1;
      PrefixClock(s, attempts, config, n);
      OperatorRunUsesWork(s, attempts[..n], config);
      var before := Sends(s, attempts[..n], config);
      HeadIsNeverMissing(before);
      EmptyIffNoWork(before, OperatorBudget(config));
      OperatorSendUsesOne(before, attempts[n], config);
    }
  }

  lemma PrefixClock(s: State, attempts: seq<Attempt>, config: Options, n: nat)
    requires config == Normalized(config) && n <= |attempts| && ClockKeepsUp(s, attempts, config)
    ensures ClockKeepsUp(s, attempts[..n], config)
  {
    forall m | 0 <= m < n ensures attempts[..n][..m] == attempts[..m] && attempts[..n][m] == attempts[m] { }
  }

  /**
   With no arrivals and an upstream that answers only 401, 403 or 404, n fresh
   batches leave the queue in exactly n * limit sends: no earlier, no later.
   */
  lemma OperatorRejectionsDrainExactly(s: State, attempts: seq<Attempt>, config: Options)
    requires Consistent(s) && config == Normalized(config) && AllFresh(s)
    requires ClockKeepsUp(s, attempts, config) && OnlyOperatorFixable(attempts)
    requires |attempts| <= |Queue(s)| * config.operatorRetryLimit
    ensures Queue(Sends(s, attempts, config)) == [] <==> |attempts| == |Queue(s)| * config.operatorRetryLimit
  {
    QueueListsPending(s);
    hide Consistent, Queue;
    FreshWork(Queue(s), s.batches, config.operatorRetryLimit, OperatorBudget(config));
    OperatorRunUsesWork(s, attempts, config);
    EmptyIffNoWork(Sends(s, attempts, config), OperatorBudget(config));
  }
}
