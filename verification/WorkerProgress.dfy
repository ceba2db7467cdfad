/**
 Progress of the delivery worker among concurrent handlers and collections
 (worker.go, `Run`): once uploads stop coming in and every batch gets finitely
 many retryable answers, a bounded number of worker steps empties the queue, and
 until then something can always move, failed fsyncs aside.
 */
module WorkerProgress {
  import opened Prelude
  import opened Keys
  import opened InboxModel
  import opened InboxInvariants
  import opened Backoff
  import opened Delivery
  import opened Drain
  import opened WorkerProtocol

  predicate IsWorkerStep(step: Step) {
    match step
    case WorkerPeek(_) | WorkerSend(_) | WorkerMark | WorkerSync(_) | WorkerReadRetry
       | WorkerPark(_) | WorkerTakeTrigger | WorkerTimer => true
    case _ => false
  }

  /**
   The environment brings no new work: no upload is accepted, nobody restarts or
   replays; the clock has reached the head's retry time whenever the worker peeks;
   and no batch gets more retryable answers than its budget.
   */
  ghost predicate Quiet(w: World, step: Step, p: Params, budget: Key -> nat)
    requires Enabled(w, step) && ValidParams(p)
  {
    match step
    case HandlerCommit(id, env, now, admitted) => AfterHandlerCommit(w, id, env, now, admitted).store == w.store
    case WorkerPeek(now) => Head(w.store).Some? ==> Due(Head(w.store).value, now)
    case WorkerSend(attempt) => WithinBudget(w.store, attempt, p.config, budget)
    case Restart | OfflineReplay(_, _) | OfflineReplayAll(_) | Crash(_) => false
    case _ => true
  }

  /** An answer that is waiting to be recorded is within the budget of its batch. */
  ghost predicate AnswerWithinBudget(w: World, p: Params, budget: Key -> nat)
    requires ValidParams(p)
  {
    w.worker.Sent? ==> WithinBudget(w.store, w.worker.attempt, p.config, budget)
  }

  /** How far the worker is from its next delivery, in steps. */
  function Phase(worker: WorkerState): nat {
    match worker
    case FoundNothing => 5
    case Planned(_) => 4
    case Parked(_) => 3
    case Marking => 3
    case Looping => 2
    case Peeked(_, _) => 1
    case Sent(_, _) => 0
    case Stopped => 0
  }

  /** An upper bound on the worker steps until the queue is empty. */
  ghost function Remaining(w: World, budget: Key -> nat): nat {
    4 * WorkLeft(w.store, budget) + Phase(w.worker)
  }

  // --- One step ------------------------------------------------------------

  lemma WorkDependsOnQueue(s: State, s': State, budget: Key -> nat)
    requires Queue(s') == Queue(s) && s'.batches == s.batches
    ensures WorkLeft(s', budget) == WorkLeft(s, budget)
  {
    hide Queue;
  }

  lemma CollectKeepsWork(s: State, now: Time, retention: Retention, budget: Key -> nat)
    ensures var s' := CollectTx(s, now, retention);
      Queue(s') == Queue(s) && WorkLeft(s', budget) == WorkLeft(s, budget)
  {
    CollectKeepsQueue(s, now, retention);
    QueueDependsOnFifo(s, CollectTx(s, now, retention));
    hide CollectTx, Queue, WorkLeft;
    WorkDependsOnQueue(s, CollectTx(s, now, retention), budget);
  }

  lemma HandlerStepKeeps(w: World, step: Step, p: Params, budget: Key -> nat)
    requires ValidParams(p) && Enabled(w, step) && Quiet(w, step, p, budget)
    requires !IsWorkerStep(step) && !step.CollectorCommit?
    ensures Apply(w, step, p).store == w.store && Apply(w, step, p).worker == w.worker
  {
    hide Queue, Head, AcceptTx, CollectTx, ReplayAllTx, ReplayTx, OutcomeTx, WithinBudget;
  }

  /** Steps of handlers and collector leave the queue and the worker as they are. */
  lemma OtherStepKeeps(w: World, step: Step, p: Params, budget: Key -> nat)
    requires ValidParams(p) && Enabled(w, step) && Quiet(w, step, p, budget) && !IsWorkerStep(step)
    ensures Queue(Apply(w, step, p).store) == Queue(w.store)
    ensures Remaining(Apply(w, step, p), budget) == Remaining(w, budget)
  {
    if step.CollectorCommit? {
      CollectorStepKeeps(w, step.now, p, budget);
      hide *;
      assert step == CollectorCommit(step.now);
    } else {
      HandlerStepKeeps(w, step, p, budget);
      hide *;
      SameWorldSameRemaining(w, Apply(w, step, p), budget);
    }
  }

  lemma CollectorStepKeeps(w: World, now: Time, p: Params, budget: Key -> nat)
    requires ValidParams(p) && Enabled(w, CollectorCommit(now))
    ensures var w' := Apply(w, CollectorCommit(now), p);
      Queue(w'.store) == Queue(w.store) && Remaining(w', budget) == Remaining(w, budget)
  {
    CollectKeepsWork(w.store, now, p.retention, budget);
    hide Queue, WorkLeft, CollectTx, Phase;
  }

  lemma SameWorldSameRemaining(w: World, w': World, budget: Key -> nat)
    requires w'.store == w.store && w'.worker == w.worker
    ensures Remaining(w', budget) == Remaining(w, budget)
  {
  }

  lemma MarkUsesWork(w: World, p: Params, budget: Key -> nat)
    requires WorldOk(w) && ValidParams(p) && w.worker.Sent? && w.lock.Free? && AnswerWithinBudget(w, p, budget)
    ensures AfterMark(w, p).worker == Marking
    ensures WorkLeft(AfterMark(w, p).store, budget) < WorkLeft(w.store, budget)
  {
    MarkNeverAborts(w, p);
    SentIsHead(w);
    StoreIsConsistent(w);
    OutcomeMovesHead(w.store, w.worker.attempt, p.config);
    QueueListsPending(w.store);
    HeadIsNeverMissing(w.store);
    hide WorldOk, Consistent, Queue, Classify, OutcomeTx, WorkLeft, HeadMoved, LogPrecedesQueue;
    HeadMovedUsesWork(w.store, AfterMark(w, p).store,
                      Classify(w.worker.attempt.status, w.worker.attempt.sendFailed, w.worker.batch.attempts,
                               p.config.operatorRetryLimit).Retryable?, budget);
  }

  lemma SentIsHead(w: World)
    requires WorldOk(w) && w.worker.Sent?
    ensures Head(w.store) == Some(w.worker.batch)
  {
    hide Consistent, Head, LogPrecedesQueue;
  }

  lemma PeekFindsHead(w: World, now: Time)
    requires WorldOk(w) && w.worker.Looping? && Queue(w.store) != []
    requires Head(w.store).Some? ==> Due(Head(w.store).value, now)
    ensures AfterPeek(w, now).worker.Peeked? && AfterPeek(w, now).store == w.store
  {
    StoreIsConsistent(w);
    HeadIsNeverMissing(w.store);
    hide WorldOk, Consistent, Queue, Head;
  }

  /** The steps that only change where the worker is. */
  lemma LocalStepProgresses(w: World, step: Step, p: Params)
    requires ValidParams(p) && Enabled(w, step) && IsWorkerStep(step) && !step.WorkerPeek? && !step.WorkerMark?
    ensures Apply(w, step, p).store == w.store
    ensures Phase(Apply(w, step, p).worker) < Phase(w.worker)
  {
    hide Queue, Head;
  }

  /** While the queue is not empty, every step of the worker brings it closer to the end. */
  lemma WorkerStepProgresses(w: World, step: Step, p: Params, budget: Key -> nat)
    requires WorldOk(w) && ValidParams(p) && Enabled(w, step) && Quiet(w, step, p, budget) && IsWorkerStep(step)
    requires Queue(w.store) != [] && AnswerWithinBudget(w, p, budget)
    ensures Remaining(Apply(w, step, p), budget) < Remaining(w, budget)
  {
    if step.WorkerPeek? {
      PeekFindsHead(w, step.now);
      hide WorldOk, Queue, Head, WorkLeft, AfterPeek;
      PhasesFall(w, Apply(w, step, p), budget);
    } else if step.WorkerMark? {
      MarkUsesWork(w, p, budget);
      hide WorldOk, Queue, WorkLeft, AfterMark, AnswerWithinBudget;
      PhasesFall(w, Apply(w, step, p), budget);
    } else {
      LocalStepProgresses(w, step, p);
      hide *;
      PhasesFall(w, Apply(w, step, p), budget);
    }
  }

  lemma PhasesFall(w: World, w': World, budget: Key -> nat)
    requires
      || (w'.store == w.store && Phase(w'.worker) < Phase(w.worker))
      || (WorkLeft(w'.store, budget) < WorkLeft(w.store, budget) && w'.worker.Marking?)
    ensures Remaining(w', budget) < Remaining(w, budget)
  {
    hide WorkLeft;
  }

  /** Nothing can be marked when nothing is queued. */
  lemma EmptyStaysEmpty(w: World, step: Step, p: Params, budget: Key -> nat)
    requires WorldOk(w) && ValidParams(p) && Enabled(w, step) && Quiet(w, step, p, budget)
    requires Queue(w.store) == []
    ensures Queue(Apply(w, step, p).store) == []
  {
    if !IsWorkerStep(step) {
      OtherStepKeeps(w, step, p, budget);
    } else if step.WorkerMark? {
      SentIsHead(w);
      StoreIsConsistent(w);
      HeadIsNeverMissing(w.store);
      assert false;
    } else {
      hide WorldOk, Queue, Head;
    }
  }

  lemma SameHeadSameBudget(s: State, s': State, a: Attempt, config: Options, budget: Key -> nat)
    requires Head(s') == Head(s) && Queue(s') == Queue(s)
    ensures WithinBudget(s, a, config, budget) ==> WithinBudget(s', a, config, budget)
  {
    hide Queue, Classify;
  }

  lemma OnlySendAnswers(w: World, step: Step, p: Params)
    requires ValidParams(p) && Enabled(w, step) && IsWorkerStep(step) && Apply(w, step, p).worker.Sent?
    ensures step.WorkerSend? && Apply(w, step, p).store == w.store && Apply(w, step, p).worker.attempt == step.attempt
  {
    hide Queue, Head, OutcomeTx;
  }

  lemma CollectorKeepsAnswer(w: World, now: Time, p: Params, budget: Key -> nat)
    requires ValidParams(p) && Enabled(w, CollectorCommit(now)) && AnswerWithinBudget(w, p, budget)
    ensures AnswerWithinBudget(Apply(w, CollectorCommit(now), p), p, budget)
  {
    var s' := CollectTx(w.store, now, p.retention);
    CollectKeepsQueue(w.store, now, p.retention);
    hide CollectTx, Queue, Head, WithinBudget;
    SameQueueKeepsHead(w.store, s');
    QueueDependsOnFifo(w.store, s');
    if w.worker.Sent? { SameHeadSameBudget(w.store, s', w.worker.attempt, p.config, budget); }
  }

  /** The answer the worker holds stays within its budget, whatever goes on around it. */
  lemma QuietKeepsAnswer(w: World, step: Step, p: Params, budget: Key -> nat)
    requires ValidParams(p) && Enabled(w, step) && Quiet(w, step, p, budget) && AnswerWithinBudget(w, p, budget)
    ensures AnswerWithinBudget(Apply(w, step, p), p, budget)
  {
    if step.CollectorCommit? {
      CollectorKeepsAnswer(w, step.now, p, budget);
      hide *;
      assert step == CollectorCommit(step.now);
    } else if IsWorkerStep(step) {
      if Apply(w, step, p).worker.Sent? { OnlySendAnswers(w, step, p); }
      hide WithinBudget, Apply, Enabled;
    } else {
      HandlerStepKeeps(w, step, p, budget);
      hide WithinBudget, Apply, Enabled;
    }
  }

  // --- Whole interleavings -------------------------------------------------

  /** Every step of the run is quiet where it is taken. */
  ghost predicate QuietRun(w: World, steps: seq<Step>, p: Params, budget: Key -> nat)
    requires ValidParams(p) && Possible(w, steps, p)
    decreases |steps|
  {
    steps == [] || (Quiet(w, steps[0], p, budget) && QuietRun(Apply(w, steps[0], p), steps[1..], p, budget))
  }

  function WorkerSteps(steps: seq<Step>): nat {
    if steps == [] then 0 else (if IsWorkerStep(steps[0]) then 1 else 0) + WorkerSteps(steps[1..])
  }

  lemma {:induction false} QuietRunEmptiesOrProgresses(w: World, steps: seq<Step>, p: Params, budget: Key -> nat)
    requires WorldOk(w) && ValidParams(p) && Possible(w, steps, p) && QuietRun(w, steps, p, budget)
    requires AnswerWithinBudget(w, p, budget)
    ensures var w' := Reached(w, steps, p);
      Queue(w'.store) == [] || (Queue(w.store) != [] && WorkerSteps(steps) + Remaining(w', budget) <= Remaining(w, budget))
    decreases |steps|
  {
    if steps != [] {
      var next := Apply(w, steps[0], p);
      StepKeepsOk(w, steps[0], p);
      QuietKeepsAnswer(w, steps[0], p, budget);
      if Queue(w.store) == [] {
        EmptyStaysEmpty(w, steps[0], p, budget);
      } else if IsWorkerStep(steps[0]) {
        WorkerStepProgresses(w, steps[0], p, budget);
      } else {
        OtherStepKeeps(w, steps[0], p, budget);
      }
      hide WorldOk, Queue, Enabled, Apply, Quiet, Remaining, AnswerWithinBudget;
      QuietRunEmptiesOrProgresses(next, steps[1..], p, budget);
    }
  }

  /**
   From every reached world: with no further arrivals and finitely many retryable
   answers, as many worker steps as `Remaining` says empty the queue, however they
   interleave with handlers and collections.
   */
  lemma WorkerEmptiesQueue(store: State, before: seq<Step>, after: seq<Step>, p: Params, budget: Key -> nat)
    requires Consistent(store) && ValidParams(p) && Possible(Started(store, []), before, p)
    requires var w := Reached(Started(store, []), before, p);
      && Possible(w, after, p) && QuietRun(w, after, p, budget) && AnswerWithinBudget(w, p, budget)
      && WorkerSteps(after) >= Remaining(w, budget)
    ensures Queue(Reached(Reached(Started(store, []), before, p), after, p).store) == []
  {
    var w := Reached(Started(store, []), before, p);
    LogStartsEmpty(store);
    EveryReachedWorldIsOk(Started(store, []), before, p);
    QuietRunEmptiesOrProgresses(w, after, p, budget);
    EmptyIffNoWork(Reached(w, after, p).store, budget);
    hide *;
    assert Remaining(Reached(w, after, p), budget) >= 0;
  }

  lemma LogStartsEmpty(store: State)
    requires Consistent(store)
    ensures WorldOk(Started(store, []))
  {
    EmptyLogPrecedes(store);
    StartedIsOk(store, []);
  }

  // --- Nothing gets stuck --------------------------------------------------

  /** A step that brings the work at hand forward, as opposed to new uploads, collections or restarts. */
  predicate IsUseful(step: Step) {
    IsWorkerStep(step) || step.HandlerSync? || step.HandlerTrigger? || step.CollectorSync?
  }

  /** Asleep with nothing to wake it: all that is queued are uploads whose fsync failed since the last look. */
  ghost predicate SleepsOnOrphans(w: World) {
    w.worker == Parked(ZERO_TIME) && !w.slot && forall k :: k in Queue(w.store) ==> k in w.orphans
  }

  /** A useful step can be taken here with no new work, at a time and with an answer that suit. */
  ghost predicate CanMove(w: World, p: Params, budget: Key -> nat)
    requires ValidParams(p)
  {
    exists step :: IsUseful(step) && Enabled(w, step) && Quiet(w, step, p, budget)
  }

  lemma CanTake(w: World, step: Step, p: Params, budget: Key -> nat)
    requires ValidParams(p) && IsUseful(step) && Enabled(w, step) && Quiet(w, step, p, budget)
    ensures CanMove(w, p, budget)
  {
  }

  /**
   In every world the invariant allows, a worker that has not stopped can take a
   useful step, or someone it waits for can, unless it sleeps on orphans alone.
   */
  lemma SomethingCanMove(w: World, attempt: Attempt, p: Params, budget: Key -> nat)
    requires WorldOk(w) && ValidParams(p) && !w.worker.Stopped?
    ensures CanMove(w, p, budget) || SleepsOnOrphans(w)
  {
    match w.worker
    case Sent(_, _) =>
      OkAgrees(w);
      hide WorldOk;
      LockCanBeFreed(w, p, budget);
    case Parked(next) =>
      OkCovers(w);
      hide WorldOk, Covered, LockAgrees, CanMove;
      SleeperCanMove(w, next, p, budget);
    case _ =>
      hide *;
      AwakeCanMove(w, attempt, p, budget);
  }

  lemma OkAgrees(w: World)
    requires WorldOk(w)
    ensures LockAgrees(w)
  {
    hide LockAgrees, Consistent, HeadStaysPeeked, NoWakeupLost, LogPrecedesQueue;
  }

  lemma OkCovers(w: World)
    requires WorldOk(w) && w.worker.Parked?
    ensures w.worker.next == ZERO_TIME ==>
      w.slot || forall k :: k in Queue(w.store) ==> k in w.orphans || TriggerComing(w.handlers, k)
  {
    StoreIsConsistent(w);
    QueueListsPending(w.store);
    hide Consistent, Queue, Head, LogPrecedesQueue, LockAgrees, HeadStaysPeeked;
  }

  lemma SuccessIsWithinBudget(s: State, a: Attempt, config: Options, budget: Key -> nat)
    requires a.status == 200 && !a.sendFailed
    ensures WithinBudget(s, a, config, budget)
  {
    hide Queue, Head;
  }

  lemma AwakeCanMove(w: World, attempt: Attempt, p: Params, budget: Key -> nat)
    requires ValidParams(p) && !w.worker.Stopped? && !w.worker.Sent? && !w.worker.Parked?
    ensures CanMove(w, p, budget)
  {
    hide Queue, Head, CanMove, WithinBudget;
    match w.worker
    case Looping => CanTake(w, WorkerPeek(if Head(w.store).Some? then Head(w.store).value.nextRetry else attempt.now), p, budget);
    case Peeked(_, now) =>
      var success := attempt.(now := now, status := 200, sendFailed := false);
      SuccessIsWithinBudget(w.store, success, p.config, budget);
      CanTake(w, WorkerSend(success), p, budget);
    case Marking => CanTake(w, WorkerSync(true), p, budget);
    case FoundNothing => CanTake(w, WorkerReadRetry, p, budget);
    case Planned(_) => CanTake(w, WorkerPark(attempt.now), p, budget);
  }

  lemma SleeperCanMove(w: World, next: Time, p: Params, budget: Key -> nat)
    requires ValidParams(p) && w.worker == Parked(next)
    requires next == ZERO_TIME ==> w.slot || forall k :: k in Queue(w.store) ==> k in w.orphans || TriggerComing(w.handlers, k)
    ensures CanMove(w, p, budget) || SleepsOnOrphans(w)
  {
    hide Queue, CanMove;
    if next != ZERO_TIME {
      CanTake(w, WorkerTimer, p, budget);
    } else if w.slot {
      CanTake(w, WorkerTakeTrigger, p, budget);
    } else if id :| id in w.handlers {
      CanTake(w, if w.handlers[id].Committed? then HandlerSync(id, true) else HandlerTrigger(id), p, budget);
    }
  }

  lemma LockCanBeFreed(w: World, p: Params, budget: Key -> nat)
    requires LockAgrees(w) && ValidParams(p) && w.worker.Sent?
    ensures CanMove(w, p, budget)
  {
    hide CanMove;
    match w.lock
    case Free => CanTake(w, WorkerMark, p, budget);
    case HeldByHandler(id) =>
      assert id in w.handlers && w.handlers[id].Committed?;
      CanTake(w, HandlerSync(id, true), p, budget);
    case HeldByCollector => CanTake(w, CollectorSync(true), p, budget);
    case HeldByWorker =>
  }

  // --- Bounded useful runs -------------------------------------------------

  function Unsynced(handlers: map<nat, Handler>): set<nat> {
    set id | id in handlers && handlers[id].Committed?
  }

  /** An upper bound on the useful steps, of anybody, until the queue is empty. */
  ghost function UsefulSteps(w: World, budget: Key -> nat): nat {
    Remaining(w, budget) + |w.handlers| + |Unsynced(w.handlers)| + if w.lock.HeldByCollector? then 1 else 0
  }

  lemma SyncUsesStep(w: World, id: nat, ok: bool)
    requires id in w.handlers && w.handlers[id].Committed?
    ensures var h := AfterHandlerSync(w, id, ok).handlers;
      |h| + |Unsynced(h)| < |w.handlers| + |Unsynced(w.handlers)|
  {
    var h := AfterHandlerSync(w, id, ok).handlers;
    assert Unsynced(h) == Unsynced(w.handlers) - {id};
    assert |Unsynced(w.handlers) - {id}| == |Unsynced(w.handlers)| - 1;
    if ok {
      assert h.Keys == w.handlers.Keys;
      assert |h.Keys| == |w.handlers.Keys|;
    } else {
      assert |w.handlers.Keys - {id}| == |w.handlers.Keys| - 1;
      assert h.Keys == w.handlers.Keys - {id};
    }
  }

  lemma TriggerUsesStep(handlers: map<nat, Handler>, id: nat)
    requires id in handlers && handlers[id].Answered?
    ensures var h := handlers - {id}; |h| == |handlers| - 1 && Unsynced(h) == Unsynced(handlers)
  {
    assert (handlers - {id}).Keys == handlers.Keys - {id};
  }

  lemma WorkerKeepsHandlers(w: World, step: Step, p: Params)
    requires ValidParams(p) && Enabled(w, step) && IsWorkerStep(step)
    ensures var w' := Apply(w, step, p);
      w'.handlers == w.handlers && (w'.lock.HeldByCollector? ==> w.lock.HeldByCollector?)
  {
    hide Head, Queue, OutcomeTx;
  }

  /** Every useful step uses one up while the queue is not empty. */
  lemma UsefulStepIsUsed(w: World, step: Step, p: Params, budget: Key -> nat)
    requires WorldOk(w) && ValidParams(p) && Enabled(w, step) && Quiet(w, step, p, budget) && IsUseful(step)
    requires Queue(w.store) != [] && AnswerWithinBudget(w, p, budget)
    ensures UsefulSteps(Apply(w, step, p), budget) < UsefulSteps(w, budget)
  {
    if IsWorkerStep(step) {
      WorkerStepProgresses(w, step, p, budget);
      WorkerKeepsHandlers(w, step, p);
      hide WorldOk, Queue, Remaining, Apply;
    } else {
      OtherStepKeeps(w, step, p, budget);
      if step.HandlerSync? { SyncUsesStep(w, step.id, step.ok); }
      if step.HandlerTrigger? { TriggerUsesStep(w.handlers, step.id); }
      hide WorldOk, Queue, Remaining;
    }
  }

  ghost predicate UsefulRun(w: World, steps: seq<Step>, p: Params, budget: Key -> nat)
    requires ValidParams(p) && Possible(w, steps, p)
  {
    QuietRun(w, steps, p, budget) && forall i :: 0 <= i < |steps| ==> IsUseful(steps[i])
  }

  lemma {:induction false} UsefulRunIsBounded(w: World, steps: seq<Step>, p: Params, budget: Key -> nat)
    requires WorldOk(w) && ValidParams(p) && Possible(w, steps, p) && UsefulRun(w, steps, p, budget)
    requires AnswerWithinBudget(w, p, budget)
    ensures var w' := Reached(w, steps, p);
      Queue(w'.store) == [] || (Queue(w.store) != [] && |steps| + UsefulSteps(w', budget) <= UsefulSteps(w, budget))
    decreases |steps|
  {
    if steps != [] {
      var next := Apply(w, steps[0], p);
      StepKeepsOk(w, steps[0], p);
      QuietKeepsAnswer(w, steps[0], p, budget);
      if Queue(w.store) == [] {
        EmptyStaysEmpty(w, steps[0], p, budget);
      } else {
        UsefulStepIsUsed(w, steps[0], p, budget);
      }
      hide WorldOk, Queue, Enabled, Apply, Quiet, UsefulSteps, AnswerWithinBudget;
      UsefulRunIsBounded(next, steps[1..], p, budget);
    }
  }

  /**
   Liveness without fairness: take useful quiet steps in any order until none is left or
   the queue is empty. That ends within `UsefulSteps` steps, with an empty queue, a
   worker stopped by a failed fsync, or one asleep on uploads whose own fsync failed.
   */
  lemma UsefulRunsDrain(w: World, steps: seq<Step>, p: Params, budget: Key -> nat, attempt: Attempt)
    requires WorldOk(w) && ValidParams(p) && Possible(w, steps, p) && UsefulRun(w, steps, p, budget)
    requires AnswerWithinBudget(w, p, budget)
    ensures var w' := Reached(w, steps, p);
      && (|steps| > UsefulSteps(w, budget) ==> Queue(w'.store) == [])
      && (!CanMove(w', p, budget) ==> w'.worker.Stopped? || SleepsOnOrphans(w'))
  {
    var w' := Reached(w, steps, p);
    UsefulRunIsBounded(w, steps, p, budget);
    EveryReachedWorldIsOk(w, steps, p);
    hide WorldOk, Queue, Enabled, UsefulSteps, SleepsOnOrphans, CanMove;
    if !w'.worker.Stopped? { SomethingCanMove(w', attempt, p, budget); }
  }
}
