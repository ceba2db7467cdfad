/**
 What the transactions of the inbox write, field by field, and when a collection
 takes it away again (store.go): nothing here is told through the functions that
 build the records or decide expiry.
 */
module Lifecycle {
  import opened Prelude
  import opened Keys
  import opened InboxModel
  import opened InboxInvariants
  import opened InboxRuns

  // --- What is written -----------------------------------------------------

  /** The receipt of `key` says that its upload is pending, and nothing of an earlier completion. */
  ghost predicate IsPending(s: State, key: Key, digest: string, acceptedAt: Time) {
    && key in s.receipts
    && s.receipts[key].payloadSha256 == digest && s.receipts[key].acceptedAt == acceptedAt
    && s.receipts[key].state.Pending? && s.receipts[key].completedAt == ZERO_TIME && s.receipts[key].errorClass == ""
  }

  /** A batch with its whole attempt budget, due at once. */
  ghost predicate IsFresh(batch: Batch) {
    && batch.attempts == 0 && batch.lastError == "" && batch.nextRetry == ZERO_TIME
    && forall now: Time :: Due(batch, now)
  }

  /** The tables agree on every key but one. */
  ghost predicate OthersStay(s: State, s': State, key: Key) {
    && (forall k :: k != key ==> (k in s'.batches <==> k in s.batches) && (k in s.batches ==> s'.batches[k] == s.batches[k]))
    && (forall k :: k != key ==> (k in s'.receipts <==> k in s.receipts) && (k in s.receipts ==> s'.receipts[k] == s.receipts[k]))
    && (forall k :: k != key ==>
          (k in s'.quarantine <==> k in s.quarantine) && (k in s.quarantine ==> s'.quarantine[k] == s.quarantine[k]))
  }

  /** An accepted upload is stored as it came, fresh, with the next sequence number and the time of acceptance. */
  lemma UploadIsStored(s: State, env: Envelope, now: Time, admitted: bool)
    requires EnvelopeKey(env) !in s.receipts
    ensures var key, tx := EnvelopeKey(env), AcceptTx(s, env, now, admitted);
      if !admitted then tx == Abort(StorageUnavailable)
      else
        && tx.Commit? && tx.reply == AcceptResult(env.batchId, Accepted, now)
        && var s' := tx.state;
           && key in s'.batches && IsFresh(s'.batches[key])
           && s'.batches[key].envelope == env && s'.batches[key].acceptedAt == now
           && s'.batches[key].sequence == s.counter + 1 == s'.counter
           && IsPending(s', key, env.payloadSha256, now)
           && s'.receipts[key].accountId == env.accountId && s'.receipts[key].batchId == env.batchId
           && OthersStay(s, s', key)
  {
    hide ReceiptKey;
  }

  /** A repeated upload is answered from its receipt and changes nothing; other contents under the same key are refused. */
  lemma RepeatIsAnswered(s: State, env: Envelope, now: Time, admitted: bool)
    requires EnvelopeKey(env) in s.receipts
    ensures var receipt := s.receipts[EnvelopeKey(env)];
      AcceptTx(s, env, now, admitted) ==
        if receipt.payloadSha256 == env.payloadSha256 then Commit(s, AcceptResult(env.batchId, Duplicate, receipt.acceptedAt))
        else Abort(IdempotencyConflict)
  {
    hide ReceiptKey;
  }

  /** An envelope is valid exactly if its ids are not empty and free of NUL and its digest is 64 lower-case hex digits. */
  lemma ValidEnvelopeIff(env: Envelope)
    ensures ValidEnvelope(env) <==>
      && env.accountId != "" && (0 as char) !in env.accountId
      && env.batchId != "" && (0 as char) !in env.batchId
      && |env.payloadSha256| == 64
      && forall i :: 0 <= i < 64 ==> env.payloadSha256[i] in "0123456789abcdef"
  {
    forall c: char ensures IsLowerHexDigit(c) <==> c in "0123456789abcdef" { HexDigitIff(c); }
    hide IsLowerHexDigit;
  }

  lemma HexDigitIff(c: char)
    ensures IsLowerHexDigit(c) <==> c in "0123456789abcdef"
  {
    var digits := "0123456789abcdef";
    assert '0' <= c <= '9' ==> digits[c as int - '0' as int] == c;
    assert 'a' <= c <= 'f' ==> digits[c as int - 'a' as int + 10] == c;
  }

  /** A store without options keeps receipts and quarantined payloads for thirty days, and a thousand of the latter. */
  lemma DefaultRetention(o: StoreOptions)
    requires o.receiptRetention == 0 && o.quarantineRetention == 0 && o.maxQuarantine == 0 && !o.Negative()
    ensures RetentionOf(o) == Retention(2_592_000_000_000_000, 2_592_000_000_000_000, 1000)
  {
  }

  /** A retry counts one more attempt and records its time and reason, on its batch alone. */
  lemma RetryIsStored(s: State, key: Key, nextRetry: Time, lastError: string)
    requires key in s.batches
    ensures var s' := RetryTx(s, key, nextRetry, lastError).After(s);
      && key in s'.batches
      && s'.batches[key].attempts == s.batches[key].attempts + 1
      && s'.batches[key].nextRetry == nextRetry && s'.batches[key].lastError == lastError
      && s'.batches[key].envelope == s.batches[key].envelope
      && s'.batches[key].sequence == s.batches[key].sequence && s'.batches[key].acceptedAt == s.batches[key].acceptedAt
      && (nextRetry != ZERO_TIME ==> forall now: Time :: Due(s'.batches[key], now) <==> nextRetry <= now)
      && s'.receipts == s.receipts && s'.fifo == s.fifo && s'.quarantine == s.quarantine
      && OthersStay(s, s', key)
  {
  }

  /** The receipt of `key` says how and when its upload was completed; its batch is no longer pending. */
  ghost predicate IsCompleted(s: State, key: Key, state: ReceiptState, at: Time, errorClass: string) {
    && key in s.receipts && key !in s.batches
    && s.receipts[key].state == state && s.receipts[key].completedAt == at && s.receipts[key].errorClass == errorClass
  }

  lemma DeliveryIsStored(s: State, key: Key, at: Time)
    requires Consistent(s) && key in s.batches
    ensures var s' := DeliveredTx(s, key, at).After(s);
      && IsCompleted(s', key, Delivered, at, "") && key !in s'.quarantine
      && s'.receipts[key].payloadSha256 == s.batches[key].envelope.payloadSha256
      && OthersStay(s, s', key)
  {
    BatchHasReceipt(s, key);
    BatchIsNotHeld(s, key);
    hide Consistent;
    DeliveryTouchesOne(s, key, at);
    hide OthersStay;
  }

  lemma BatchIsNotHeld(s: State, key: Key)
    requires Consistent(s) && key in s.batches
    ensures key !in s.quarantine
    ensures key in s.receipts && s.receipts[key].payloadSha256 == s.batches[key].envelope.payloadSha256
  {
  }

  lemma DeliveryTouchesOne(s: State, key: Key, at: Time)
    requires key in s.batches && key in s.receipts
    ensures OthersStay(s, DeliveredTx(s, key, at).After(s), key)
  {
  }

  lemma QuarantineIsStored(s: State, key: Key, errorClass: string, at: Time)
    requires Consistent(s) && key in s.batches
    ensures var s' := QuarantinedTx(s, key, errorClass, at).After(s);
      && IsCompleted(s', key, Quarantined, at, errorClass)
      && key in s'.quarantine && s'.quarantine[key] == s.batches[key]
      && OthersStay(s, s', key)
  {
    BatchHasReceipt(s, key);
    hide Consistent;
    QuarantineTouchesOne(s, key, errorClass, at);
    hide OthersStay;
  }

  lemma QuarantineTouchesOne(s: State, key: Key, errorClass: string, at: Time)
    requires key in s.batches && key in s.receipts
    ensures OthersStay(s, QuarantinedTx(s, key, errorClass, at).After(s), key)
  {
  }

  // --- When it is collected ------------------------------------------------

  /** A key delivered at `t` is forgotten by a collection exactly if the receipt retention has passed by then. */
  lemma DeliveredIsCollectedWhenDue(s: State, key: Key, t: Time, now: Time, retention: Retention)
    requires Consistent(s) && key in s.batches && t != ZERO_TIME
    ensures var delivered := DeliveredTx(s, key, t).After(s);
      key !in CollectTx(delivered, now, retention).receipts <==> t + retention.receipts <= now
  {
    DeliveryIsStored(s, key, t);
    CollectKeepsReceipts(DeliveredTx(s, key, t).After(s), now, retention);
    hide Consistent, CollectTx, DeliveredTx, OthersStay;
  }

  /**
   A key quarantined at `t` is forgotten by a collection exactly if the quarantine
   retention has passed by then, and its payload goes with it at the latest.
   */
  lemma QuarantinedIsCollectedWhenDue(s: State, key: Key, errorClass: string, t: Time, now: Time, retention: Retention)
    requires Consistent(s) && key in s.batches && t != ZERO_TIME
    ensures var quarantined := QuarantinedTx(s, key, errorClass, t).After(s);
      var collected := CollectTx(quarantined, now, retention);
      && (key !in collected.receipts <==> t + retention.quarantine <= now)
      && (t + retention.quarantine <= now ==> key !in collected.quarantine)
      && (key in collected.quarantine ==> collected.quarantine[key] == s.batches[key])
  {
    QuarantineIsStored(s, key, errorClass, t);
    QuarantinedKeepsConsistency(s, key, errorClass, t);
    var quarantined := QuarantinedTx(s, key, errorClass, t).After(s);
    hide Consistent, QuarantinedTx, OthersStay;
    HeldUntilDue(quarantined, key, errorClass, t, now, retention);
  }

  lemma HeldUntilDue(s: State, key: Key, errorClass: string, t: Time, now: Time, retention: Retention)
    requires Consistent(s) && IsCompleted(s, key, Quarantined, t, errorClass) && t != ZERO_TIME && key in s.quarantine
    ensures var collected := CollectTx(s, now, retention);
      && (key !in collected.receipts <==> t + retention.quarantine <= now)
      && (t + retention.quarantine <= now ==> key !in collected.quarantine)
      && (key in collected.quarantine ==> collected.quarantine[key] == s.quarantine[key])
  {
    CollectKeepsConsistency(s, now, retention);
    CollectShrinks(s, now, retention);
    OrphansAreNotKept(CollectTx(s, now, retention), key);
    hide Consistent, CollectTx;
    CollectKeepsReceipts(s, now, retention);
  }

  lemma OrphansAreNotKept(s: State, key: Key)
    requires Consistent(s)
    ensures key in s.quarantine ==> key in s.receipts
  {
  }

  /** The retention in force for a completed receipt. */
  function RetentionFor(state: ReceiptState, retention: Retention): nat {
    if state.Delivered? then retention.receipts else retention.quarantine
  }

  /** `key` was completed as `state` at `t`. */
  ghost predicate CompletedAt(s: State, key: Key, state: ReceiptState, t: Time) {
    && t != ZERO_TIME && !state.Pending?
    && key in s.receipts && s.receipts[key].state == state && s.receipts[key].completedAt == t
  }

  /** The operation neither crashes, nor brings the key back, nor collects once its retention has passed. */
  ghost predicate Spares(op: Op, key: Key, state: ReceiptState, t: Time, retention: Retention) {
    match op
    case CrashOp(_) => false
    case ReplayOp(k, _) => state.Delivered? || k != key
    case ReplayAllOp(_) => state.Delivered?
    case CollectOp(now) => now < t + RetentionFor(state, retention)
    case _ => true
  }

  lemma CompletedHasNoBatch(s: State, key: Key, state: ReceiptState, t: Time)
    requires Consistent(s) && CompletedAt(s, key, state, t)
    ensures key !in s.batches && (state.Delivered? ==> key !in s.quarantine)
  {
  }

  lemma {:induction false} ReplayEachSparesOthers(s: State, keys: seq<Key>, admits: nat -> bool, replayed: nat, key: Key)
    requires key !in s.quarantine
    ensures var s' := ReplayEach(s, keys, admits, replayed).After(s);
      (key in s'.receipts <==> key in s.receipts) && (key in s.receipts ==> s'.receipts[key] == s.receipts[key])
    decreases |keys|
  {
    if keys != [] && ReplayTx(s, keys[0], admits(replayed)).Commit? {
      ReplayEachSparesOthers(ReplayTx(s, keys[0], admits(replayed)).state, keys[1..], admits, replayed + 1, key);
    }
  }

  /** Accepting, retrying, completing or replaying other keys leaves the receipt alone. */
  lemma OtherOpsSpare(s: State, op: Op, key: Key, state: ReceiptState, t: Time, retention: Retention)
    requires CompletedAt(s, key, state, t) && Spares(op, key, state, t, retention) && !op.CollectOp? && !op.ReplayAllOp?
    requires key !in s.batches && (state.Delivered? ==> key !in s.quarantine)
    ensures var s' := Effect(s, op, retention);
      key in s'.receipts && s'.receipts[key] == s.receipts[key]
  {
    hide CollectTx, ReplayAllTx, ReceiptKey, Requeued, RestoredReceipt, RetentionFor;
  }

  lemma SparedStays(s: State, op: Op, key: Key, state: ReceiptState, t: Time, retention: Retention)
    requires Consistent(s) && CompletedAt(s, key, state, t) && Spares(op, key, state, t, retention)
    ensures var s' := Effect(s, op, retention);
      CompletedAt(s', key, state, t) && s'.receipts[key] == s.receipts[key]
  {
    CompletedHasNoBatch(s, key, state, t);
    hide Consistent, CollectTx, ReplayEach, AcceptanceOrder, AcceptTx, RetryTx, DeliveredTx, QuarantinedTx, ReplayTx;
    match op
    case CollectOp(now) => CollectKeepsReceipts(s, now, retention);
    case ReplayAllOp(admits) => ReplayEachSparesOthers(s, AcceptanceOrder(s.quarantine), admits, 0, key);
    case _ => OtherOpsSpare(s, op, key, state, t, retention);
  }

  /**
   Over any run: what was delivered at `t` stays on record as delivered at `t` while
   no collection runs at or after t plus the receipt retention, and the same for what
   was quarantined and not replayed, with the quarantine retention.
   */
  lemma {:induction false} CompletedUntilDue(
      sys: Sys, events: seq<Event>, key: Key, state: ReceiptState, t: Time, retention: Retention)
    requires SysOk(sys) && CompletedAt(Live(sys), key, state, t)
    requires forall i :: 0 <= i < |events| ==> Spares(events[i].op, key, state, t, retention)
    ensures CompletedAt(Live(Run(sys, events, retention)), key, state, t)
    decreases |events|
  {
    assert sys.images != [];
    hide SysOk, Next, Spares, CompletedAt;
    if events != [] {
      NextCompleted(sys, events[0], key, state, t, retention);
      CompletedUntilDue(Next(sys, events[0], retention), events[1..], key, state, t, retention);
    }
  }

  lemma NextCompleted(sys: Sys, ev: Event, key: Key, state: ReceiptState, t: Time, retention: Retention)
    requires SysOk(sys) && CompletedAt(Live(sys), key, state, t) && Spares(ev.op, key, state, t, retention)
    ensures SysOk(Next(sys, ev, retention)) && CompletedAt(Live(Next(sys, ev, retention)), key, state, t)
  {
    assert sys.images != [];
    hide *;
    LiveIsConsistent(sys);
    NextKeepsOk(sys, ev, retention);
    NotSparedByCrash(ev.op, key, state, t, retention);
    NextLive(sys, ev, retention);
    SparedStays(Live(sys), ev.op, key, state, t, retention);
  }

  lemma NotSparedByCrash(op: Op, key: Key, state: ReceiptState, t: Time, retention: Retention)
    requires Spares(op, key, state, t, retention)
    ensures !op.CrashOp?
  {
  }

  /** The first collection at or after that time forgets it. */
  lemma CompletedThenCollected(
      sys: Sys, events: seq<Event>, now: Time, syncOk: bool, key: Key, state: ReceiptState, t: Time, retention: Retention)
    requires SysOk(sys) && CompletedAt(Live(sys), key, state, t)
    requires forall i :: 0 <= i < |events| ==> Spares(events[i].op, key, state, t, retention)
    ensures key !in Live(Next(Run(sys, events, retention), Event(CollectOp(now), syncOk), retention)).receipts
      <==> t + RetentionFor(state, retention) <= now
  {
    assert sys.images != [];
    CompletedUntilDue(sys, events, key, state, t, retention);
    RunKeepsOk(sys, events, retention);
    hide *;
    CollectedNext(Run(sys, events, retention), now, syncOk, key, state, t, retention);
  }

  lemma CollectedNext(sys: Sys, now: Time, syncOk: bool, key: Key, state: ReceiptState, t: Time, retention: Retention)
    requires SysOk(sys) && CompletedAt(Live(sys), key, state, t)
    ensures key !in Live(Next(sys, Event(CollectOp(now), syncOk), retention)).receipts <==> t + RetentionFor(state, retention) <= now
  {
    assert sys.images != [];
    hide SysOk, Next, CollectTx;
    NextLive(sys, Event(CollectOp(now), syncOk), retention);
    CollectKeepsReceipts(Live(sys), now, retention);
  }

  // --- Replay --------------------------------------------------------------

  /** A replayed payload is the one that was quarantined, fresh, under the given sequence number. */
  ghost predicate IsReplayed(s: State, s': State, key: Key, sequence: nat) {
    && key in s.quarantine && key in s'.batches && IsFresh(s'.batches[key])
    && s'.batches[key].envelope == s.quarantine[key].envelope
    && s'.batches[key].acceptedAt == s.quarantine[key].acceptedAt
    && s'.batches[key].sequence == sequence
    && key in s.receipts && IsPending(s', key, s.receipts[key].payloadSha256, s.receipts[key].acceptedAt)
    && key !in s'.quarantine
  }

  /** Replaying one payload makes it fresh and pending again and touches no other key. */
  lemma ReplayedIsFresh(s: State, key: Key)
    requires Consistent(s) && key in s.quarantine
    ensures var tx := ReplayTx(s, key, true);
      tx.Commit? && IsReplayed(s, tx.state, key, s.counter + 1) && OthersStay(s, tx.state, key)
  {
    QuarantinedHasReceipt(s, key);
    hide Consistent;
    ReplayTouchesOne(s, key);
    hide OthersStay;
  }

  lemma ReplayTouchesOne(s: State, key: Key)
    requires key in s.quarantine
    ensures OthersStay(s, ReplayTx(s, key, true).After(s), key)
  {
  }

  lemma PendingReceiptIsClean(s: State, key: Key)
    requires Consistent(s) && key in s.batches
    ensures key in s.receipts && s.receipts[key].state.Pending?
    ensures s.receipts[key].completedAt == ZERO_TIME && s.receipts[key].errorClass == ""
  {
  }

  lemma RequeuedIsFresh(s: State, s': State, keys: seq<Key>, i: nat)
    requires Consistent(s) && Consistent(s') && Replayed(s, s', keys) && i < |keys|
    ensures keys[i] in s.quarantine && keys[i] in s'.batches && IsFresh(s'.batches[keys[i]])
    ensures s'.batches[keys[i]].envelope == s.quarantine[keys[i]].envelope
    ensures s'.batches[keys[i]].acceptedAt == s.quarantine[keys[i]].acceptedAt
    ensures s'.batches[keys[i]].sequence == s.counter + 1 + i
    ensures keys[i] !in s'.quarantine
  {
    hide Consistent, Queue, Extends;
    assert keys[i] in keys;
  }

  /** After replaying all, every payload that was quarantined is fresh and pending, in acceptance order. */
  lemma AllReplayedAreFresh(s: State, admits: nat -> bool, i: nat)
    requires Consistent(s) && ReplayAllTx(s, admits).Commit? && i < |AcceptanceOrder(s.quarantine)|
    ensures IsReplayed(s, ReplayAllTx(s, admits).state, AcceptanceOrder(s.quarantine)[i], s.counter + 1 + i)
  {
    var keys, s' := AcceptanceOrder(s.quarantine), ReplayAllTx(s, admits).state;
    var key := keys[i];
    ReplayAllAppendsInAcceptanceOrder(s, admits);
    RequeuedIsFresh(s, s', keys, i);
    PendingReceiptIsClean(s', key);
    QuarantinedHasReceipt(s, key);
    EffectKeepsReceipts(s, ReplayAllOp(admits), Retention(0, 0, 0));
    hide Consistent, ReplayAllTx, Replayed, AcceptanceOrder, InAcceptanceOrder;
  }

  lemma QuarantinedHasReceipt(s: State, key: Key)
    requires Consistent(s) && key in s.quarantine
    ensures key in s.receipts
  {
  }

  /** A replay is refused for want of the payload or of space, in that order, and otherwise commits. */
  lemma ReplayAnswers(s: State, key: Key, admitted: bool)
    ensures key !in s.quarantine ==> ReplayTx(s, key, admitted) == Abort(BatchNotFound)
    ensures key in s.quarantine && !admitted ==> ReplayTx(s, key, admitted) == Abort(StorageUnavailable)
    ensures key in s.quarantine && admitted ==> ReplayTx(s, key, admitted).Commit?
  {
    hide Requeued, RestoredReceipt;
  }
}
