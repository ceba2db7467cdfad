/**
 The inbox over whole runs: any sequence of operations, failed fsyncs, clean
 restarts and crashes. The database is opened without automatic syncing, so a
 crash may leave any image committed since the last successful fsync.
 */
module InboxRuns {
  import opened Prelude
  import opened Keys
  import opened InboxModel
  import opened InboxInvariants

  datatype Op =
    | AcceptOp(env: Envelope, now: Time, admitted: bool)
    | RetryOp(key: Key, nextRetry: Time, lastError: string)
    | DeliverOp(key: Key, at: Time)
    | QuarantineOp(key: Key, errorClass: string, at: Time)
    | CollectOp(now: Time)
    | ReplayOp(key: Key, admitted: bool)
    | ReplayAllOp(admits: nat -> bool)
    | SyncOp
    | RestartOp
    | CrashOp(survivor: nat)

  /** One operation and whether the fsync it reaches, if any, succeeds. */
  datatype Event = Event(op: Op, syncOk: bool)

  /** What an acknowledged upload was promised. */
  datatype Ack = Ack(digest: string, acceptedAt: Time)

  /**
   `images[0]` is the durable image and the last image is live; those between
   were committed since the last successful fsync. `unsynced` holds the keys
   accepted since then, `acked` the keys whose upload has been answered.
   */
  datatype Sys = Sys(images: seq<State>, unsynced: set<Key>, acked: map<Key, Ack>)

  const INITIAL := Sys([EMPTY], {}, map[])

  function Live(sys: Sys): State
    requires sys.images != []
  {
    sys.images[|sys.images| - 1]
  }

  function IsAccepted(tx: Tx<AcceptResult>): bool {
    tx.Commit? && tx.reply.outcome.Accepted?
  }

  /** The buckets after the operation's transaction. */
  ghost function Effect(s: State, op: Op, retention: Retention): State {
    match op
    case AcceptOp(env, now, admitted) => AcceptTx(s, env, now, admitted).After(s)
    case RetryOp(key, nextRetry, lastError) => RetryTx(s, key, nextRetry, lastError).After(s)
    case DeliverOp(key, at) => DeliveredTx(s, key, at).After(s)
    case QuarantineOp(key, errorClass, at) => QuarantinedTx(s, key, errorClass, at).After(s)
    case CollectOp(now) => CollectTx(s, now, retention)
    case ReplayOp(key, admitted) => ReplayTx(s, key, admitted).After(s)
    case ReplayAllOp(admits) => ReplayAllTx(s, admits).After(s)
    case SyncOp | RestartOp | CrashOp(_) => s
  }

  /** Whether the operation gets as far as the fsync. */
  ghost predicate ReachesSync(s: State, op: Op, retention: Retention) {
    match op
    case AcceptOp(env, now, admitted) => IsAccepted(AcceptTx(s, env, now, admitted))
    case RetryOp(key, nextRetry, lastError) => RetryTx(s, key, nextRetry, lastError).Commit?
    case DeliverOp(key, at) => DeliveredTx(s, key, at).Commit?
    case QuarantineOp(key, errorClass, at) => QuarantinedTx(s, key, errorClass, at).Commit?
    case CollectOp(now) => CollectTx(s, now, retention) != s
    case ReplayOp(key, admitted) => ReplayTx(s, key, admitted).Commit?
    case ReplayAllOp(admits) => ReplayAllTx(s, admits).Commit?
    case SyncOp | RestartOp | CrashOp(_) => true
  }

  ghost function ImagesAfter(images: seq<State>, ev: Event, retention: Retention): seq<State>
    requires images != []
    ensures ImagesAfter(images, ev, retention) != []
  {
    var live := images[|images| - 1];
    var next := Effect(live, ev.op, retention);
    if ev.op.CrashOp? then [if ev.op.survivor < |images| then images[ev.op.survivor] else live]
    else if ev.op.RestartOp? then [live]
    else if !ReachesSync(live, ev.op, retention) then images
    else if ev.syncOk then [next]
    else if ev.op.SyncOp? then images
    else images + [next]
  }

  ghost function UnsyncedAfter(sys: Sys, ev: Event, retention: Retention): set<Key>
    requires sys.images != []
  {
    var live := Live(sys);
    var next := Effect(live, ev.op, retention);
    if ev.op.CrashOp? || ev.op.RestartOp? then {}
    else if !ReachesSync(live, ev.op, retention) then sys.unsynced
    else if ev.syncOk then {}
    else if ev.op.AcceptOp? then sys.unsynced + {EnvelopeKey(ev.op.env)}
    else sys.unsynced * next.receipts.Keys
  }

  /** The upload is answered "accepted" after its fsync, or "duplicate" with no fsync of its own. */
  ghost function AckedAfter(sys: Sys, ev: Event, retention: Retention): map<Key, Ack>
    requires sys.images != []
  {
    var live := Live(sys);
    match ev.op
    case AcceptOp(env, now, admitted) =>
      var key, tx := EnvelopeKey(env), AcceptTx(live, env, now, admitted);
      if tx.Abort? then sys.acked
      else if tx.reply.outcome.Accepted? then
        if ev.syncOk then sys.acked[key := Ack(env.payloadSha256, now)] else sys.acked
      else if key in sys.unsynced then sys.acked
      else sys.acked[key := Ack(env.payloadSha256, tx.reply.acceptedAt)]
    case CollectOp(now) => sys.acked - ExpiredKeys(live, now, retention)
    case _ => sys.acked
  }

  ghost function Next(sys: Sys, ev: Event, retention: Retention): Sys
    requires sys.images != []
    ensures Next(sys, ev, retention).images != []
  {
    Sys(ImagesAfter(sys.images, ev, retention), UnsyncedAfter(sys, ev, retention), AckedAfter(sys, ev, retention))
  }

  ghost function Run(sys: Sys, events: seq<Event>, retention: Retention): Sys
    requires sys.images != []
    ensures Run(sys, events, retention).images != []
    decreases |events|
  {
    if events == [] then sys else Run(Next(sys, events[0], retention), events[1..], retention)
  }

  lemma NoSyncNoEffect(s: State, op: Op, retention: Retention)
    ensures !ReachesSync(s, op, retention) ==> Effect(s, op, retention) == s
    ensures op.SyncOp? || op.RestartOp? || op.CrashOp? ==> Effect(s, op, retention) == s
  {
  }

  lemma NextLive(sys: Sys, ev: Event, retention: Retention)
    requires sys.images != [] && !ev.op.CrashOp?
    ensures Live(Next(sys, ev, retention)) == Effect(Live(sys), ev.op, retention)
  {
    hide Effect, ReachesSync, UnsyncedAfter, AckedAfter;
    NoSyncNoEffect(Live(sys), ev.op, retention);
  }

  // --- What one transaction does to receipts -------------------------------

  /** Every receipt survives with the digest and acceptance time it was created with. */
  ghost predicate ReceiptsKept(s: State, s': State) {
    forall k :: k in s.receipts ==> Holds(s', k, AckOf(s.receipts[k]))
  }

  ghost predicate NoNewReceipts(s: State, s': State) {
    forall k :: k in s'.receipts ==> k in s.receipts
  }

  lemma ReplayKeepsReceipts(s: State, key: Key, admitted: bool)
    requires Consistent(s)
    ensures ReceiptsKept(s, ReplayTx(s, key, admitted).After(s))
    ensures NoNewReceipts(s, ReplayTx(s, key, admitted).After(s))
  {
    ReplayKeepsConsistency(s, key, admitted);
    hide Consistent;
  }

  lemma KeptTransitively(s: State, next: State, s': State)
    requires ReceiptsKept(s, next) && ReceiptsKept(next, s') && NoNewReceipts(s, next) && NoNewReceipts(next, s')
    ensures ReceiptsKept(s, s') && NoNewReceipts(s, s')
  {
    assert forall k :: k in s.receipts ==> Holds(next, k, AckOf(s.receipts[k]));
  }

  lemma {:induction false} ReplayEachKeepsReceipts(s: State, keys: seq<Key>, admits: nat -> bool, replayed: nat)
    requires Consistent(s)
    ensures ReceiptsKept(s, ReplayEach(s, keys, admits, replayed).After(s))
    ensures NoNewReceipts(s, ReplayEach(s, keys, admits, replayed).After(s))
    decreases |keys|
  {
    if keys != [] && ReplayTx(s, keys[0], admits(replayed)).Commit? {
      hide Consistent, ReceiptsKept, NoNewReceipts;
      var next := ReplayTx(s, keys[0], admits(replayed)).state;
      ReplayKeepsConsistency(s, keys[0], admits(replayed));
      ReplayKeepsReceipts(s, keys[0], admits(replayed));
      ReplayEachKeepsReceipts(next, keys[1..], admits, replayed + 1);
      var rest := ReplayEach(next, keys[1..], admits, replayed + 1);
      if rest.Commit? { KeptTransitively(s, next, rest.state); } else { KeptByItself(s); }
    }
  }

  lemma KeptByItself(s: State)
    ensures ReceiptsKept(s, s) && NoNewReceipts(s, s)
  {
  }

  lemma EffectKeepsConsistency(s: State, op: Op, retention: Retention)
    requires Consistent(s)
    ensures Consistent(Effect(s, op, retention))
  {
    hide Consistent;
    match op
    case AcceptOp(env, now, admitted) => AcceptKeepsConsistency(s, env, now, admitted);
    case RetryOp(key, nextRetry, lastError) => RetryKeepsConsistency(s, key, nextRetry, lastError);
    case DeliverOp(key, at) => DeliveredKeepsConsistency(s, key, at);
    case QuarantineOp(key, errorClass, at) => QuarantinedKeepsConsistency(s, key, errorClass, at);
    case CollectOp(now) => CollectKeepsConsistency(s, now, retention);
    case ReplayOp(key, admitted) => ReplayKeepsConsistency(s, key, admitted);
    case ReplayAllOp(admits) => ReplayAllKeepsConsistency(s, admits);
    case SyncOp | RestartOp | CrashOp(_) =>
  }

  lemma CompletionKeepsReceipts(s: State, key: Key, nextRetry: Time, errorClass: string, at: Time)
    ensures var next := RetryTx(s, key, nextRetry, errorClass).After(s); ReceiptsKept(s, next) && NoNewReceipts(s, next)
    ensures var next := DeliveredTx(s, key, at).After(s); ReceiptsKept(s, next) && NoNewReceipts(s, next)
    ensures var next := QuarantinedTx(s, key, errorClass, at).After(s); ReceiptsKept(s, next) && NoNewReceipts(s, next)
  {
  }

  lemma EffectKeepsReceipts(s: State, op: Op, retention: Retention)
    requires Consistent(s)
    ensures !op.CollectOp? ==> ReceiptsKept(s, Effect(s, op, retention))
    ensures !op.AcceptOp? ==> NoNewReceipts(s, Effect(s, op, retention))
  {
    hide Consistent;
    match op
    case RetryOp(key, nextRetry, lastError) => CompletionKeepsReceipts(s, key, nextRetry, lastError, ZERO_TIME);
    case DeliverOp(key, at) => CompletionKeepsReceipts(s, key, ZERO_TIME, "", at);
    case QuarantineOp(key, errorClass, at) => CompletionKeepsReceipts(s, key, ZERO_TIME, errorClass, at);
    case ReplayOp(key, admitted) => ReplayKeepsReceipts(s, key, admitted);
    case ReplayAllOp(admits) => ReplayEachKeepsReceipts(s, AcceptanceOrder(s.quarantine), admits, 0);
    case AcceptOp(env, now, admitted) =>
    case CollectOp(now) =>
    case SyncOp | RestartOp | CrashOp(_) =>
  }

  /** Only a collection removes a receipt, and it removes exactly the expired ones. */
  lemma ForgottenIffExpired(s: State, op: Op, retention: Retention, key: Key)
    requires Consistent(s) && key in s.receipts
    ensures key !in Effect(s, op, retention).receipts <==>
      op.CollectOp? && Expired(s.receipts[key], op.now, retention)
  {
    EffectKeepsReceipts(s, op, retention);
  }

  // --- The invariant of a run ----------------------------------------------

  ghost predicate Holds(s: State, key: Key, ack: Ack) {
    && key in s.receipts
    && s.receipts[key].payloadSha256 == ack.digest
    && s.receipts[key].acceptedAt == ack.acceptedAt
  }

  function AckOf(r: Receipt): Ack {
    Ack(r.payloadSha256, r.acceptedAt)
  }

  ghost predicate EveryImage(images: seq<State>, key: Key, ack: Ack) {
    forall i :: 0 <= i < |images| ==> Holds(images[i], key, ack)
  }

  ghost predicate ImagesConsistent(images: seq<State>) {
    forall i :: 0 <= i < |images| ==> Consistent(images[i])
  }

  /** A key is unsynced exactly when some image a crash may leave does not know it. */
  ghost predicate SyncedKeysAreEverywhere(sys: Sys)
    requires sys.images != []
  {
    var live := Live(sys);
    && (forall k :: k in sys.unsynced ==> k in live.receipts)
    && (forall k :: k in sys.unsynced ==> exists i :: 0 <= i < |sys.images| && k !in sys.images[i].receipts)
    && (forall k :: k in live.receipts && k !in sys.unsynced ==> EveryImage(sys.images, k, AckOf(live.receipts[k])))
  }

  ghost predicate AcksAreSynced(sys: Sys)
    requires sys.images != []
  {
    forall k :: k in sys.acked ==> k !in sys.unsynced && Holds(Live(sys), k, sys.acked[k])
  }

  ghost predicate SysOk(sys: Sys) {
    && sys.images != []
    && ImagesConsistent(sys.images)
    && SyncedKeysAreEverywhere(sys)
    && AcksAreSynced(sys)
  }

  lemma InitialIsOk()
    ensures SysOk(INITIAL)
  {
    EmptyIsConsistent();
  }

  lemma NextKeepsImages(sys: Sys, ev: Event, retention: Retention)
    requires sys.images != [] && ImagesConsistent(sys.images)
    ensures ImagesConsistent(Next(sys, ev, retention).images)
  {
    hide Consistent, Effect, ReachesSync;
    EffectKeepsConsistency(Live(sys), ev.op, retention);
  }

  /** A commit whose fsync failed adds an image; what was everywhere stays everywhere. */
  lemma CommitKeepsSynced(images: seq<State>, next: State, key: Key, ack: Ack)
    requires EveryImage(images, key, ack) && Holds(next, key, ack)
    ensures EveryImage(images + [next], key, ack)
  {
  }

  lemma MissingStaysMissing(images: seq<State>, next: State, key: Key)
    requires exists i :: 0 <= i < |images| && key !in images[i].receipts
    ensures exists i :: 0 <= i < |images + [next]| && key !in (images + [next])[i].receipts
  {
    var i :| 0 <= i < |images| && key !in images[i].receipts;
    assert (images + [next])[i] == images[i];
  }

  lemma KeptHolds(s: State, s': State, op: Op, retention: Retention, key: Key)
    requires Consistent(s) && s' == Effect(s, op, retention)
    requires key in s.receipts && key in s'.receipts
    ensures Holds(s', key, AckOf(s.receipts[key])) && AckOf(s'.receipts[key]) == AckOf(s.receipts[key])
  {
    EffectKeepsReceipts(s, op, retention);
  }

  lemma NextKeepsSynced(sys: Sys, ev: Event, retention: Retention)
    requires SysOk(sys)
    ensures SyncedKeysAreEverywhere(Next(sys, ev, retention))
  {
    hide ImagesConsistent, SyncedKeysAreEverywhere, AcksAreSynced, Effect, ReachesSync, Consistent;
    var sys' := Next(sys, ev, retention);
    if ev.op.CrashOp? || ev.op.RestartOp? {
      OneImageIsSynced(sys');
    } else if !ReachesSync(Live(sys), ev.op, retention) {
      SyncedDependsOnImages(sys, sys');
    } else if ev.syncOk {
      OneImageIsSynced(sys');
    } else if ev.op.SyncOp? {
      FailedSyncChangesNothing(sys, ev, retention);
      SyncedDependsOnImages(sys, sys');
    } else {
      FailedFsyncKeepsSynced(sys, ev, retention);
    }
  }

  lemma OneImageIsSynced(sys: Sys)
    requires |sys.images| == 1 && sys.unsynced == {}
    ensures SyncedKeysAreEverywhere(sys)
  {
  }

  lemma SyncedDependsOnImages(sys: Sys, sys': Sys)
    requires sys.images != [] && SyncedKeysAreEverywhere(sys)
    requires sys'.images == sys.images && sys'.unsynced == sys.unsynced
    ensures SyncedKeysAreEverywhere(sys')
  {
  }

  lemma FailedSyncChangesNothing(sys: Sys, ev: Event, retention: Retention)
    requires sys.images != [] && SyncedKeysAreEverywhere(sys) && ev.op.SyncOp? && !ev.syncOk
    ensures UnsyncedAfter(sys, ev, retention) == sys.unsynced
  {
  }

  lemma FailedFsyncKeepsSynced(sys: Sys, ev: Event, retention: Retention)
    requires SysOk(sys) && ReachesSync(Live(sys), ev.op, retention) && !ev.syncOk
    requires !ev.op.CrashOp? && !ev.op.RestartOp? && !ev.op.SyncOp?
    ensures SyncedKeysAreEverywhere(Next(sys, ev, retention))
  {
    hide ImagesConsistent, AcksAreSynced, Effect, ReachesSync, Consistent, UnsyncedAfter, Holds, EveryImage;
    var sys' := Next(sys, ev, retention);
    var live := Live(sys);
    var next := Effect(live, ev.op, retention);
    assert sys'.images == sys.images + [next] && Live(sys') == next;
    forall k | k in sys'.unsynced
      ensures k in next.receipts
      ensures exists i :: 0 <= i < |sys'.images| && k !in sys'.images[i].receipts
    {
      UnsyncedIsMissing(sys, ev, retention, k);
      MissingStaysMissing(sys.images, next, k);
    }
    forall k | k in next.receipts && k !in sys'.unsynced
      ensures EveryImage(sys'.images, k, AckOf(next.receipts[k]))
    {
      SyncedWasSynced(sys, ev, retention, k);
      LiveIsConsistent(sys);
      KeptHolds(live, next, ev.op, retention, k);
      CommitKeepsSynced(sys.images, next, k, AckOf(live.receipts[k]));
    }
  }

  lemma LiveIsConsistent(sys: Sys)
    requires sys.images != [] && ImagesConsistent(sys.images)
    ensures Consistent(Live(sys))
  {
  }

  lemma UnsyncedIsMissing(sys: Sys, ev: Event, retention: Retention, k: Key)
    requires SysOk(sys) && ReachesSync(Live(sys), ev.op, retention) && !ev.syncOk
    requires !ev.op.CrashOp? && !ev.op.RestartOp?
    requires k in UnsyncedAfter(sys, ev, retention)
    ensures k in Effect(Live(sys), ev.op, retention).receipts
    ensures exists i :: 0 <= i < |sys.images| && k !in sys.images[i].receipts
  {
    hide Consistent;
    if ev.op.AcceptOp? && k == EnvelopeKey(ev.op.env) {
      assert k !in sys.images[|sys.images| - 1].receipts;
    }
  }

  lemma SyncedWasSynced(sys: Sys, ev: Event, retention: Retention, k: Key)
    requires SysOk(sys) && ReachesSync(Live(sys), ev.op, retention) && !ev.syncOk
    requires !ev.op.CrashOp? && !ev.op.RestartOp?
    requires k in Effect(Live(sys), ev.op, retention).receipts && k !in UnsyncedAfter(sys, ev, retention)
    ensures k in Live(sys).receipts && k !in sys.unsynced
  {
    EffectKeepsReceipts(Live(sys), ev.op, retention);
    hide Consistent;
  }

  lemma NextKeepsAcks(sys: Sys, ev: Event, retention: Retention)
    requires SysOk(sys)
    ensures AcksAreSynced(Next(sys, ev, retention))
  {
    var sys' := Next(sys, ev, retention);
    var live := Live(sys);
    forall k | k in sys'.acked ensures k !in sys'.unsynced && Holds(Live(sys'), k, sys'.acked[k]) {
      AckHolds(sys, ev, retention, k);
    }
  }

  lemma AckHolds(sys: Sys, ev: Event, retention: Retention, k: Key)
    requires SysOk(sys) && k in Next(sys, ev, retention).acked
    ensures var sys' := Next(sys, ev, retention);
      k !in sys'.unsynced && Holds(Live(sys'), k, sys'.acked[k])
  {
    hide Consistent, ImagesConsistent;
    LiveIsConsistent(sys);
    if ev.op.AcceptOp? && k == EnvelopeKey(ev.op.env) {
      FreshAckHolds(sys, ev, retention);
    } else {
      assert k in sys.acked && Next(sys, ev, retention).acked[k] == sys.acked[k];
      OldAckHolds(sys, ev, retention, k);
    }
  }

  lemma FreshAckHolds(sys: Sys, ev: Event, retention: Retention)
    requires SysOk(sys) && ev.op.AcceptOp? && EnvelopeKey(ev.op.env) in Next(sys, ev, retention).acked
    ensures var sys', k := Next(sys, ev, retention), EnvelopeKey(ev.op.env);
      k !in sys'.unsynced && Holds(Live(sys'), k, sys'.acked[k])
  {
    hide Consistent, ImagesConsistent, SyncedKeysAreEverywhere;
  }

  lemma OldAckHolds(sys: Sys, ev: Event, retention: Retention, k: Key)
    requires SysOk(sys) && k in sys.acked
    requires !(ev.op.AcceptOp? && k == EnvelopeKey(ev.op.env))
    requires ev.op.CollectOp? ==> k !in ExpiredKeys(Live(sys), ev.op.now, retention)
    ensures var sys' := Next(sys, ev, retention);
      k !in sys'.unsynced && Holds(Live(sys'), k, sys.acked[k])
  {
    hide Consistent, ImagesConsistent, Effect, ReachesSync;
    var live := Live(sys);
    LiveIsConsistent(sys);
    assert EveryImage(sys.images, k, AckOf(live.receipts[k]));
    ForgottenIffExpired(live, ev.op, retention, k);
    KeptHolds(live, Effect(live, ev.op, retention), ev.op, retention, k);
  }

  lemma NextKeepsOk(sys: Sys, ev: Event, retention: Retention)
    requires SysOk(sys)
    ensures SysOk(Next(sys, ev, retention))
  {
    hide ImagesConsistent, SyncedKeysAreEverywhere, AcksAreSynced;
    NextKeepsImages(sys, ev, retention);
    NextKeepsSynced(sys, ev, retention);
    NextKeepsAcks(sys, ev, retention);
  }

  lemma {:induction false} RunKeepsOk(sys: Sys, events: seq<Event>, retention: Retention)
    requires SysOk(sys)
    ensures SysOk(Run(sys, events, retention))
    decreases |events|
  {
    if events != [] {
      NextKeepsOk(sys, events[0], retention);
      hide SysOk;
      RunKeepsOk(Next(sys, events[0], retention), events[1..], retention);
    }
  }

  // --- Durable acknowledgement ---------------------------------------------

  /** A key known to `s` is either still stored there or on record as done. */
  ghost predicate Owned(s: State, key: Key, ack: Ack) {
    && Holds(s, key, ack)
    && match s.receipts[key].state
       case Pending => key in s.batches && s.batches[key].envelope.payloadSha256 == ack.digest
       case Delivered => key !in s.batches && key !in s.quarantine
       case Quarantined =>
         key !in s.batches && (key in s.quarantine ==> s.quarantine[key].envelope.payloadSha256 == ack.digest)
  }

  /** After any run, whatever a crash leaves behind still owns every acknowledged upload. */
  lemma AcknowledgedSurvivesEveryCrash(events: seq<Event>, retention: Retention, key: Key)
    requires key in Run(INITIAL, events, retention).acked
    ensures var sys := Run(INITIAL, events, retention);
      forall i :: 0 <= i < |sys.images| ==> Owned(sys.images[i], key, sys.acked[key])
  {
    InitialIsOk();
    RunKeepsOk(INITIAL, events, retention);
    var sys := Run(INITIAL, events, retention);
    assert EveryImage(sys.images, key, AckOf(Live(sys).receipts[key]));
    forall i | 0 <= i < |sys.images| ensures Owned(sys.images[i], key, sys.acked[key]) {
      KnownIsOwned(sys.images[i], key, sys.acked[key]);
    }
  }

  lemma KnownIsOwned(s: State, key: Key, ack: Ack)
    requires Consistent(s) && Holds(s, key, ack)
    ensures Owned(s, key, ack)
  {
  }

  /** An upload answered "accepted" is in the durable image, payload and receipt. */
  lemma AcceptedIsDurable(sys: Sys, env: Envelope, now: Time, admitted: bool, retention: Retention)
    requires SysOk(sys) && IsAccepted(AcceptTx(Live(sys), env, now, admitted))
    ensures var sys' := Next(sys, Event(AcceptOp(env, now, admitted), true), retention);
      && sys'.images == [Live(sys')]
      && EnvelopeKey(env) in sys'.images[0].batches
      && sys'.images[0].batches[EnvelopeKey(env)].envelope == env
      && Holds(sys'.images[0], EnvelopeKey(env), Ack(env.payloadSha256, now))
  {
    hide SysOk;
  }

  /**
   An upload answered "duplicate" is in every image a crash may leave if and
   only if an fsync has succeeded since its key was committed.
   */
  lemma DuplicateIsDurableIffSynced(sys: Sys, env: Envelope, now: Time, admitted: bool)
    requires SysOk(sys)
    requires AcceptTx(Live(sys), env, now, admitted).Commit? && !IsAccepted(AcceptTx(Live(sys), env, now, admitted))
    ensures var reply := AcceptTx(Live(sys), env, now, admitted).reply;
      EveryImage(sys.images, EnvelopeKey(env), Ack(env.payloadSha256, reply.acceptedAt)) <==> EnvelopeKey(env) !in sys.unsynced
  {
    hide Consistent, ImagesConsistent;
    var key := EnvelopeKey(env);
    if key in sys.unsynced {
      var i :| 0 <= i < |sys.images| && key !in sys.images[i].receipts;
      assert !Holds(sys.images[i], key, AckOf(Live(sys).receipts[key]));
    }
  }

  /**
   The condition is needed: when the fsync of an acceptance fails, a retry of
   the same upload is answered "duplicate" without an fsync, and a crash then
   forgets it.
   */
  lemma DuplicateWithoutSyncCanBeLost(env: Envelope, now: Time, retention: Retention)
    ensures var accept := Event(AcceptOp(env, now, true), false);
      var afterFailure := Run(INITIAL, [accept], retention);
      && AcceptTx(Live(afterFailure), env, now, true) == Commit(Live(afterFailure), AcceptResult(env.batchId, Duplicate, now))
      && EnvelopeKey(env) !in Live(Run(INITIAL, [accept, accept, Event(CrashOp(0), true)], retention)).receipts
  {
    var accept := Event(AcceptOp(env, now, true), false);
    var crash := Event(CrashOp(0), true);
    var first := Next(INITIAL, accept, retention);
    assert first.images[0] == EMPTY && |first.images| == 2;
    assert [accept][1..] == [];
    assert Run(INITIAL, [accept], retention) == first;
    var second := Next(first, accept, retention);
    assert second.images == first.images;
    var events := [accept, accept, crash];
    assert events[1..] == [accept, crash] && events[1..][1..] == [crash] && events[1..][1..][1..] == [];
    assert Run(second, [crash], retention) == Next(second, crash, retention);
    assert Run(first, [accept, crash], retention) == Run(second, [crash], retention);
  }

  // --- Idempotency over the lifetime of a key ------------------------------

  /** No crash happens, and no collection in the run finds the key's receipt expired. */
  ghost predicate Remembered(sys: Sys, events: seq<Event>, key: Key, retention: Retention)
    requires sys.images != []
    decreases |events|
  {
    events != [] ==>
      && !events[0].op.CrashOp?
      && (events[0].op.CollectOp? && key in Live(sys).receipts ==>
            !Expired(Live(sys).receipts[key], events[0].op.now, retention))
      && Remembered(Next(sys, events[0], retention), events[1..], key, retention)
  }

  /** The reply to an upload of a key the inbox knows: decided by the digest alone, and changing nothing. */
  ghost predicate AnswersAsBefore(s: State, key: Key, ack: Ack) {
    forall env: Envelope, now: Time, admitted: bool :: EnvelopeKey(env) == key ==>
      AcceptTx(s, env, now, admitted) ==
        if env.payloadSha256 == ack.digest then Commit(s, AcceptResult(env.batchId, Duplicate, ack.acceptedAt))
        else Abort(IdempotencyConflict)
  }

  lemma NextRemembers(sys: Sys, ev: Event, retention: Retention, key: Key, ack: Ack)
    requires sys.images != [] && Consistent(Live(sys)) && Holds(Live(sys), key, ack) && !ev.op.CrashOp?
    requires ev.op.CollectOp? ==> !Expired(Live(sys).receipts[key], ev.op.now, retention)
    ensures Holds(Live(Next(sys, ev, retention)), key, ack)
  {
    hide Consistent, Effect, Next;
    NextLive(sys, ev, retention);
    ForgottenIffExpired(Live(sys), ev.op, retention, key);
    KeptHolds(Live(sys), Effect(Live(sys), ev.op, retention), ev.op, retention, key);
  }

  /**
   Through retries, quarantine, eviction, replay, failed fsyncs and clean
   restarts, a known key keeps answering "duplicate" with its original time to
   the original digest and a conflict to any other.
   */
  lemma {:induction false} IdempotentUntilForgotten(sys: Sys, events: seq<Event>, retention: Retention, key: Key, ack: Ack)
    requires SysOk(sys) && Holds(Live(sys), key, ack)
    requires Remembered(sys, events, key, retention)
    ensures AnswersAsBefore(Live(Run(sys, events, retention)), key, ack)
    decreases |events|
  {
    if events != [] {
      NextKeepsOk(sys, events[0], retention);
      LiveIsConsistent(sys);
      NextRemembers(sys, events[0], retention, key, ack);
      hide SysOk, Next;
      IdempotentUntilForgotten(Next(sys, events[0], retention), events[1..], retention, key, ack);
    }
  }

  /** An acknowledged upload keeps its answer across crashes as well. */
  lemma AcknowledgedStaysIdempotent(events: seq<Event>, retention: Retention, key: Key)
    requires key in Run(INITIAL, events, retention).acked
    ensures var sys := Run(INITIAL, events, retention);
      forall i :: 0 <= i < |sys.images| ==> AnswersAsBefore(sys.images[i], key, sys.acked[key])
  {
    AcknowledgedSurvivesEveryCrash(events, retention, key);
  }

  // --- Lifecycle of a key --------------------------------------------------

  /** Where a key stands: `Held` is quarantined with its payload, `Evicted` quarantined without. */
  datatype Status = Absent | Waiting | Done | Held | Evicted

  ghost function StatusOf(s: State, key: Key): Status {
    if key !in s.receipts then Absent
    else match s.receipts[key].state
      case Pending => Waiting
      case Delivered => Done
      case Quarantined => if key in s.quarantine then Held else Evicted
  }

  ghost predicate Edge(op: Op, key: Key, before: Status, after: Status) {
    || after == before
    || (op.AcceptOp? && key == EnvelopeKey(op.env) && before == Absent && after == Waiting)
    || (op.DeliverOp? && key == op.key && before == Waiting && after == Done)
    || (op.QuarantineOp? && key == op.key && before == Waiting && after == Held)
    || (op.ReplayOp? && key == op.key && before == Held && after == Waiting)
    || (op.ReplayAllOp? && before == Held && after == Waiting)
    || (op.CollectOp? && before == Held && after == Evicted)
    || (op.CollectOp? && before in {Done, Held, Evicted} && after == Absent)
  }

  /** Every operation moves every key only along the edges of its lifecycle. */
  lemma KeysMoveAlongEdges(s: State, op: Op, retention: Retention, key: Key)
    requires Consistent(s)
    ensures Edge(op, key, StatusOf(s, key), StatusOf(Effect(s, op, retention), key))
  {
    hide Consistent, StatusOf;
    match op
    case AcceptOp(env, now, admitted) => AcceptMoves(s, env, now, admitted, key);
    case DeliverOp(k, at) => CompletionMoves(s, k, "", at, key);
    case QuarantineOp(k, errorClass, at) => CompletionMoves(s, k, errorClass, at, key);
    case ReplayOp(k, admitted) => ReplayMovesHeld(s, k, admitted, key);
    case ReplayAllOp(admits) => ReplayAllMovesHeld(s, admits, key);
    case CollectOp(now) => CollectMoves(s, now, retention, key);
    case RetryOp(k, nextRetry, lastError) => RetryStays(s, k, nextRetry, lastError, key);
    case SyncOp | RestartOp | CrashOp(_) =>
  }

  lemma RetryStays(s: State, key: Key, nextRetry: Time, lastError: string, k: Key)
    ensures StatusOf(RetryTx(s, key, nextRetry, lastError).After(s), k) == StatusOf(s, k)
  {
  }

  lemma AcceptMoves(s: State, env: Envelope, now: Time, admitted: bool, key: Key)
    requires Consistent(s)
    ensures var after := AcceptTx(s, env, now, admitted).After(s);
      || StatusOf(after, key) == StatusOf(s, key)
      || (key == EnvelopeKey(env) && StatusOf(s, key) == Absent && StatusOf(after, key) == Waiting)
  {
    hide Consistent;
  }

  lemma CompletionMoves(s: State, key: Key, errorClass: string, at: Time, k: Key)
    requires Consistent(s)
    ensures var after := DeliveredTx(s, key, at).After(s);
      StatusOf(after, k) == StatusOf(s, k) || (k == key && StatusOf(s, k) == Waiting && StatusOf(after, k) == Done)
    ensures var after := QuarantinedTx(s, key, errorClass, at).After(s);
      StatusOf(after, k) == StatusOf(s, k) || (k == key && StatusOf(s, k) == Waiting && StatusOf(after, k) == Held)
  {
    assert key in s.batches ==> StatusOf(s, key) == Waiting;
    hide Consistent;
  }

  lemma CollectMoves(s: State, now: Time, retention: Retention, k: Key)
    requires Consistent(s)
    ensures var before, after := StatusOf(s, k), StatusOf(CollectTx(s, now, retention), k);
      || after == before
      || (before == Held && after == Evicted)
      || (before in {Done, Held, Evicted} && after == Absent)
  {
    CollectShrinks(s, now, retention);
    CollectKeepsPending(s, now, retention, k);
    hide Consistent, CollectTx;
  }

  /** A collection keeps pending receipts, and keeps those it keeps as they are. */
  lemma CollectKeepsPending(s: State, now: Time, retention: Retention, k: Key)
    ensures var s' := CollectTx(s, now, retention);
      && (k in s'.receipts ==> k in s.receipts && s'.receipts[k] == s.receipts[k])
      && (k in s.receipts && s.receipts[k].state.Pending? ==> k in s'.receipts)
  {
    CollectKeepsReceipts(s, now, retention);
    hide CollectTx;
  }

  lemma ReplayAllMovesHeld(s: State, admits: nat -> bool, key: Key)
    requires Consistent(s)
    ensures var after := ReplayAllTx(s, admits).After(s);
      StatusOf(after, key) == StatusOf(s, key) || (StatusOf(s, key) == Held && StatusOf(after, key) == Waiting)
  {
    ReplayEachMovesHeld(s, AcceptanceOrder(s.quarantine), admits, 0, key);
  }

  lemma ReplayMovesHeld(s: State, key: Key, admitted: bool, k: Key)
    requires Consistent(s)
    ensures var after := ReplayTx(s, key, admitted).After(s);
      StatusOf(after, k) == StatusOf(s, k) || (k == key && StatusOf(s, k) == Held && StatusOf(after, k) == Waiting)
  {
    assert key in s.quarantine ==> StatusOf(s, key) == Held;
    hide Consistent;
  }

  lemma {:induction false} ReplayEachMovesHeld(s: State, keys: seq<Key>, admits: nat -> bool, replayed: nat, key: Key)
    requires Consistent(s)
    ensures var after := ReplayEach(s, keys, admits, replayed).After(s);
      StatusOf(after, key) == StatusOf(s, key) || (StatusOf(s, key) == Held && StatusOf(after, key) == Waiting)
    decreases |keys|
  {
    if keys != [] && ReplayTx(s, keys[0], admits(replayed)).Commit? {
      hide Consistent, StatusOf;
      ReplayKeepsConsistency(s, keys[0], admits(replayed));
      ReplayMovesHeld(s, keys[0], admits(replayed), key);
      ReplayEachMovesHeld(ReplayTx(s, keys[0], admits(replayed)).state, keys[1..], admits, replayed + 1, key);
    }
  }

  // --- Conservation of payloads --------------------------------------------

  function Stored(s: State): nat {
    |s.batches| + |s.quarantine|
  }

  /**
   Payloads counted along a run: uploads answered "accepted", uploads committed
   whose fsync failed, payloads delivered upstream, payloads deleted by collection.
   */
  datatype Ledger = Ledger(answered: nat, unanswered: nat, delivered: nat, deleted: nat)

  ghost function Booked(ledger: Ledger, s: State, ev: Event, retention: Retention): Ledger {
    match ev.op
    case AcceptOp(env, now, admitted) =>
      if !IsAccepted(AcceptTx(s, env, now, admitted)) then ledger
      else if ev.syncOk then ledger.(answered := ledger.answered + 1)
      else ledger.(unanswered := ledger.unanswered + 1)
    case DeliverOp(key, at) =>
      if DeliveredTx(s, key, at).Commit? then ledger.(delivered := ledger.delivered + 1) else ledger
    case CollectOp(now) =>
      CappedIsSubmap(s.quarantine - ExpiredPayloads(s, now, retention), retention.maxQuarantine);
      SubmapSize(CollectTx(s, now, retention).quarantine, s.quarantine);
      ledger.(deleted := ledger.deleted + |s.quarantine| - |CollectTx(s, now, retention).quarantine|)
    case _ => ledger
  }

  ghost predicate Balanced(ledger: Ledger, s: State) {
    ledger.answered + ledger.unanswered == ledger.delivered + ledger.deleted + Stored(s)
  }

  lemma ReplayConservesPayloads(s: State, key: Key, admitted: bool)
    requires Consistent(s)
    ensures Stored(ReplayTx(s, key, admitted).After(s)) == Stored(s)
  {
    if ReplayTx(s, key, admitted).Commit? {
      assert key !in s.batches;
      assert |s.quarantine - {key}| == |s.quarantine| - 1;
    }
  }

  lemma {:induction false} ReplayEachConservesPayloads(s: State, keys: seq<Key>, admits: nat -> bool, replayed: nat)
    requires Consistent(s)
    ensures Stored(ReplayEach(s, keys, admits, replayed).After(s)) == Stored(s)
    decreases |keys|
  {
    if keys != [] && ReplayTx(s, keys[0], admits(replayed)).Commit? {
      hide Consistent, Stored;
      ReplayKeepsConsistency(s, keys[0], admits(replayed));
      ReplayConservesPayloads(s, keys[0], admits(replayed));
      ReplayEachConservesPayloads(ReplayTx(s, keys[0], admits(replayed)).state, keys[1..], admits, replayed + 1);
    }
  }

  /** By how much one operation changes the number of stored payloads. */
  lemma StoredAfterUpload(s: State, env: Envelope, now: Time, admitted: bool)
    requires Consistent(s)
    ensures var tx := AcceptTx(s, env, now, admitted);
      Stored(tx.After(s)) == Stored(s) + if IsAccepted(tx) then 1 else 0
  {
    assert EnvelopeKey(env) !in s.receipts ==> EnvelopeKey(env) !in s.batches;
    hide Consistent;
  }

  lemma StoredAfterDelivery(s: State, key: Key, at: Time)
    ensures var tx := DeliveredTx(s, key, at);
      Stored(tx.After(s)) == Stored(s) - if tx.Commit? then 1 else 0
  {
    if key in s.batches { assert |s.batches - {key}| == |s.batches| - 1; }
  }

  lemma StoredAfterQuarantine(s: State, key: Key, errorClass: string, at: Time)
    requires Consistent(s)
    ensures Stored(QuarantinedTx(s, key, errorClass, at).After(s)) == Stored(s)
  {
    assert key in s.batches ==> key !in s.quarantine;
    hide Consistent;
    if key in s.batches { assert |s.batches - {key}| == |s.batches| - 1; }
  }

  /** A payload enters by acceptance and leaves by delivery or collection; nothing else changes their number. */
  lemma EffectBalances(ledger: Ledger, s: State, ev: Event, retention: Retention)
    requires Consistent(s) && Balanced(ledger, s)
    ensures Balanced(Booked(ledger, s, ev, retention), Effect(s, ev.op, retention))
  {
    hide Consistent;
    match ev.op
    case AcceptOp(env, now, admitted) => StoredAfterUpload(s, env, now, admitted);
    case DeliverOp(key, at) => StoredAfterDelivery(s, key, at);
    case QuarantineOp(key, errorClass, at) => StoredAfterQuarantine(s, key, errorClass, at);
    case ReplayOp(key, admitted) => ReplayConservesPayloads(s, key, admitted);
    case ReplayAllOp(admits) => ReplayEachConservesPayloads(s, AcceptanceOrder(s.quarantine), admits, 0);
    case _ =>
  }

  ghost predicate CrashFree(events: seq<Event>) {
    forall i :: 0 <= i < |events| ==> !events[i].op.CrashOp?
  }

  ghost function LedgerOf(ledger: Ledger, sys: Sys, events: seq<Event>, retention: Retention): Ledger
    requires sys.images != []
    decreases |events|
  {
    if events == [] then ledger
    else LedgerOf(Booked(ledger, Live(sys), events[0], retention), Next(sys, events[0], retention), events[1..], retention)
  }

  lemma NextBalances(ledger: Ledger, sys: Sys, ev: Event, retention: Retention)
    requires SysOk(sys) && !ev.op.CrashOp? && Balanced(ledger, Live(sys))
    ensures Balanced(Booked(ledger, Live(sys), ev, retention), Live(Next(sys, ev, retention)))
  {
    LiveIsConsistent(sys);
    hide SysOk, Next, Booked, Balanced, Effect, Consistent;
    NextLive(sys, ev, retention);
    EffectBalances(ledger, Live(sys), ev, retention);
  }

  lemma {:induction false} RunBalances(ledger: Ledger, sys: Sys, events: seq<Event>, retention: Retention)
    requires SysOk(sys) && CrashFree(events) && Balanced(ledger, Live(sys))
    ensures Balanced(LedgerOf(ledger, sys, events, retention), Live(Run(sys, events, retention)))
    decreases |events|
  {
    assert sys.images != [];
    hide SysOk, Next, Booked, Balanced;
    if events != [] {
      NextKeepsOk(sys, events[0], retention);
      NextBalances(ledger, sys, events[0], retention);
      assert CrashFree(events[1..]) && !events[0].op.CrashOp?;
      hide CrashFree;
      RunBalances(Booked(ledger, Live(sys), events[0], retention), Next(sys, events[0], retention), events[1..], retention);
    }
  }

  /** Over any crash-free run: uploads committed == delivered + deleted by collection + still stored. */
  lemma PayloadsAreConserved(events: seq<Event>, retention: Retention)
    requires CrashFree(events)
    ensures Balanced(LedgerOf(Ledger(0, 0, 0, 0), INITIAL, events, retention), Live(Run(INITIAL, events, retention)))
  {
    InitialIsOk();
    RunBalances(Ledger(0, 0, 0, 0), INITIAL, events, retention);
  }
}
