/**
 The store object and the runs of `InboxRuns` are the same thing: whatever is
 called on a store, its buckets and its disk image are those of the run.
 */
module StoreRuns {
  import opened Prelude
  import opened Keys
  import opened InboxModel
  import opened InboxInvariants
  import opened BoltStore
  import opened InboxRuns

  /** The buckets and the disk image of a store are the live and the durable image of the run. */
  ghost predicate Tracks(image: Image, sys: Sys) {
    sys.images != [] && image == Image(Live(sys), sys.images[0])
  }

  // --- One transaction -----------------------------------------------------

  /** A settled transaction is one step of the run, whatever the operation. */
  lemma SettledIsNext<R>(before: Image, sys: Sys, ev: Event, retention: Retention, tx: Tx<R>, after: Image, r: Result<R, Error>)
    requires Tracks(before, sys) && Settles(None, tx, ev.syncOk, before, after, r)
    requires !ev.op.CrashOp? && !ev.op.RestartOp? && !ev.op.SyncOp?
    requires Effect(before.live, ev.op, retention) == tx.After(before.live)
    requires ReachesSync(before.live, ev.op, retention) <==> tx.Commit?
    ensures Tracks(after, Next(sys, ev, retention))
  {
    hide Effect, ReachesSync;
  }

  lemma AcceptIsNext(before: Image, sys: Sys, env: Envelope, now: Time, admitted: bool, syncOk: bool, retention: Retention,
                     after: Image, r: Result<AcceptResult, Error>)
    requires Tracks(before, sys)
    requires var tx := AcceptTx(before.live, env, now, admitted);
      if tx.Commit? && tx.reply.outcome.Duplicate? then r == Ok(tx.reply) && after == before
      else Settles(None, tx, syncOk, before, after, r)
    ensures var next := Next(sys, Event(AcceptOp(env, now, admitted), syncOk), retention);
      && Tracks(after, next)
      // an answer to the client is an acknowledgement, unless a failed fsync of the key is still outstanding
      && (r.Ok? && (r.value.outcome.Accepted? || EnvelopeKey(env) !in sys.unsynced) ==>
            EnvelopeKey(env) in next.acked && next.acked[EnvelopeKey(env)] == Ack(env.payloadSha256, r.value.acceptedAt))
  {
    hide ReceiptKey;
  }

  lemma CollectIsNext(before: Image, sys: Sys, now: Time, syncOk: bool, retention: Retention, after: Image, r: Result<nat, Error>)
    requires Tracks(before, sys) && Consistent(before.live)
    requires CollectSettles(None, now, retention, syncOk, before, after, r)
    ensures Tracks(after, Next(sys, Event(CollectOp(now), syncOk), retention))
  {
    var ev := Event(CollectOp(now), syncOk);
    CollectEffect(before.live, now, retention);
    if Removed(before.live, after.live) == 0 {
      CollectedNothing(before.live, now, retention);
      hide *;
      UnreachedIsNext(before, sys, ev, retention);
    } else {
      assert after.live != before.live;
      hide Consistent, CollectTx, Effect, ReachesSync, Next;
      var removed: nat := if r.Ok? then r.value else 0;
      SettledIsNext(before, sys, ev, retention, Commit(after.live, removed), after, r);
    }
  }

  lemma CollectEffect(s: State, now: Time, retention: Retention)
    ensures Effect(s, CollectOp(now), retention) == CollectTx(s, now, retention)
    ensures ReachesSync(s, CollectOp(now), retention) <==> CollectTx(s, now, retention) != s
  {
  }

  lemma UnreachedIsNext(before: Image, sys: Sys, ev: Event, retention: Retention)
    requires Tracks(before, sys) && !ReachesSync(before.live, ev.op, retention)
    requires !ev.op.CrashOp? && !ev.op.RestartOp?
    ensures Tracks(before, Next(sys, ev, retention))
  {
    hide Effect, ReachesSync;
  }

  // --- Any sequence of calls -----------------------------------------------

  datatype Call =
    | Accept(env: Envelope, now: Time, admitted: bool)
    | MarkRetry(accountId: string, batchId: string, nextRetry: Time, lastError: string)
    | MarkDelivered(accountId: string, batchId: string, at: Time, clock: Time)
    | MarkQuarantined(accountId: string, batchId: string, errorClass: string, at: Time, clock: Time)
    | CollectReceipts(now: Time)
    | ReplayQuarantined(accountId: string, batchId: string, admitted: bool)
    | ReplayAllQuarantined(admits: nat -> bool)
    | Sync
    | Close

  /** One call, how its context is cancelled, and whether an fsync it reaches succeeds. */
  datatype Invocation = Invocation(call: Call, ctx: Context, syncOk: bool)

  function Given(at: Time, clock: Time): Time {
    if at == ZERO_TIME then clock else at
  }

  /** The operation a call amounts to, if its arguments are accepted at all. */
  function OpOf(call: Call): Option<Op> {
    match call
    case Accept(env, now, admitted) => if ValidEnvelope(env) then Some(AcceptOp(env, now, admitted)) else None
    case MarkRetry(a, b, nextRetry, lastError) =>
      if nextRetry == ZERO_TIME then None else Some(RetryOp(ReceiptKey(a, b), nextRetry, lastError))
    case MarkDelivered(a, b, at, clock) => Some(DeliverOp(ReceiptKey(a, b), Given(at, clock)))
    case MarkQuarantined(a, b, errorClass, at, clock) =>
      if errorClass == "" then None else Some(QuarantineOp(ReceiptKey(a, b), errorClass, Given(at, clock)))
    case CollectReceipts(now) => Some(CollectOp(now))
    case ReplayQuarantined(a, b, admitted) => Some(ReplayOp(ReceiptKey(a, b), admitted))
    case ReplayAllQuarantined(admits) => Some(ReplayAllOp(admits))
    case Sync | Close => Some(SyncOp)
  }

  /** Why the call never reaches its transaction; syncing and closing take no context. */
  function Stopped(i: Invocation, closed: bool): Option<Error> {
    if i.call.Sync? || i.call.Close? then (if closed then Some(Closed) else None) else Blocked(i.ctx, closed)
  }

  /** The event of the run, if the call gets past its arguments, its context and a closed store. */
  function EventsOf(i: Invocation, closed: bool): seq<Event> {
    if OpOf(i.call).None? || Stopped(i, closed).Some? then [] else [Event(OpOf(i.call).value, i.syncOk)]
  }

  function ClosedAfter(calls: seq<Invocation>, closed: bool): bool {
    if calls == [] then closed
    else ClosedAfter(calls[..|calls| - 1], closed) || calls[|calls| - 1].call.Close?
  }

  /** The events of all the calls, in order. */
  function EventsOfAll(calls: seq<Invocation>, closed: bool): seq<Event> {
    if calls == [] then []
    else
      var front := calls[..|calls| - 1];
      EventsOfAll(front, closed) + EventsOf(calls[|calls| - 1], ClosedAfter(front, closed))
  }

  // --- What the store answers ----------------------------------------------

  datatype Reply =
    | AcceptReply(upload: Result<AcceptResult, Error>)
    | DoneReply(done: Result<(), Error>)
    | CountReply(count: Result<int, Error>)

  /** The reply to a call that settles one transaction. */
  function SettledReply<R>(stopped: Option<Error>, tx: Tx<R>, syncOk: bool): Result<R, Error> {
    match stopped
    case Some(error) => Err(error)
    case None =>
      match tx
      case Abort(error) => Err(error)
      case Commit(_, reply) => if syncOk then Ok(reply) else Err(SyncFailed)
  }

  function UploadReply(stopped: Option<Error>, tx: Tx<AcceptResult>, syncOk: bool): Result<AcceptResult, Error> {
    if stopped.None? && tx.Commit? && tx.reply.outcome.Duplicate? then Ok(tx.reply) else SettledReply(stopped, tx, syncOk)
  }

  function Counted(r: Result<nat, Error>): Result<int, Error> {
    match r case Ok(n) => Ok(n) case Err(e) => Err(e)
  }

  ghost function CollectReply(stopped: Option<Error>, s: State, now: Time, retention: Retention, syncOk: bool): Result<int, Error> {
    match stopped
    case Some(error) => Err(error)
    case None =>
      var removed := Removed(s, CollectTx(s, now, retention));
      if removed == 0 || syncOk then Ok(removed) else Err(SyncFailed)
  }

  /** What the store must answer to a call when its buckets are `s`. */
  ghost function ReplyTo(i: Invocation, s: State, closed: bool, retention: Retention): Reply {
    var stopped := Stopped(i, closed);
    match i.call
    case Accept(env, now, admitted) =>
      AcceptReply(if ValidEnvelope(env) then UploadReply(stopped, AcceptTx(s, env, now, admitted), i.syncOk) else Err(InvalidEnvelope))
    case MarkRetry(a, b, nextRetry, lastError) =>
      DoneReply(if nextRetry == ZERO_TIME then Err(RetryTimeRequired)
                else SettledReply(stopped, RetryTx(s, ReceiptKey(a, b), nextRetry, lastError), i.syncOk))
    case MarkDelivered(a, b, at, clock) =>
      DoneReply(SettledReply(stopped, DeliveredTx(s, ReceiptKey(a, b), Given(at, clock)), i.syncOk))
    case MarkQuarantined(a, b, errorClass, at, clock) =>
      DoneReply(if errorClass == "" then Err(ErrorClassRequired)
                else SettledReply(stopped, QuarantinedTx(s, ReceiptKey(a, b), errorClass, Given(at, clock)), i.syncOk))
    case CollectReceipts(now) => CountReply(CollectReply(stopped, s, now, retention, i.syncOk))
    case ReplayQuarantined(a, b, admitted) =>
      DoneReply(SettledReply(stopped, ReplayTx(s, ReceiptKey(a, b), admitted), i.syncOk))
    case ReplayAllQuarantined(admits) =>
      CountReply(Counted(SettledReply(stopped, ReplayAllTx(s, admits), i.syncOk)))
    case Sync => DoneReply(if closed then Err(Closed) else if i.syncOk then Ok(()) else Err(SyncFailed))
    case Close => DoneReply(if closed || i.syncOk then Ok(()) else Err(SyncFailed))
  }

  /** The run before the `n`-th call. */
  ghost function Before(sys: Sys, calls: seq<Invocation>, n: nat, closed: bool, retention: Retention): Sys
    requires sys.images != [] && n <= |calls|
    ensures Before(sys, calls, n, closed, retention).images != []
  {
    Run(sys, EventsOfAll(calls[..n], closed), retention)
  }

  /** Each reply is the one due to its call in the state it found. */
  ghost predicate RepliesAreDue(replies: seq<Reply>, sys: Sys, calls: seq<Invocation>, closed: bool, retention: Retention)
    requires sys.images != []
  {
    && |replies| == |calls|
    && forall n :: 0 <= n < |calls| ==>
         replies[n] == ReplyTo(calls[n], Live(Before(sys, calls, n, closed, retention)), ClosedAfter(calls[..n], closed), retention)
  }

  lemma RunOne(sys: Sys, ev: Event, retention: Retention)
    requires sys.images != []
    ensures Run(sys, [ev], retention) == Next(sys, ev, retention)
  {
    assert [ev][1..] == [];
    hide Next;
  }

  lemma {:induction false} RunConcat(sys: Sys, a: seq<Event>, b: seq<Event>, retention: Retention)
    requires sys.images != []
    ensures Run(sys, a + b, retention) == Run(Run(sys, a, retention), b, retention)
    decreases |a|
  {
    hide Next;
    if a == [] {
      assert a + b == b;
    } else {
      assert (a + b)[0] == a[0] && (a + b)[1..] == a[1..] + b;
      RunConcat(Next(sys, a[0], retention), a[1..], b, retention);
    }
  }

  /** A call that settles one transaction moves the run by its event, if it gets that far, and answers as due. */
  lemma SettledTracks<R>(before: Image, sys: Sys, i: Invocation, closed: bool, retention: Retention, tx: Tx<R>,
                         after: Image, r: Result<R, Error>)
    requires Tracks(before, sys) && OpOf(i.call).Some? && !i.call.Sync? && !i.call.Close?
    requires Settles(Blocked(i.ctx, closed), tx, i.syncOk, before, after, r)
    requires Effect(before.live, OpOf(i.call).value, retention) == tx.After(before.live)
    requires ReachesSync(before.live, OpOf(i.call).value, retention) <==> tx.Commit?
    ensures Tracks(after, Run(sys, EventsOf(i, closed), retention))
    ensures r == SettledReply(Blocked(i.ctx, closed), tx, i.syncOk)
  {
    hide Effect, ReachesSync, Next;
    if Blocked(i.ctx, closed).None? {
      SettledIsNext(before, sys, Event(OpOf(i.call).value, i.syncOk), retention, tx, after, r);
      RunOne(sys, Event(OpOf(i.call).value, i.syncOk), retention);
    }
  }

  /** One performed call: the store tracks the run one event further, and the reply is the one due. */
  twostate predicate Performed(store: BoltStore, i: Invocation, sys: Sys, reply: Reply)
    requires sys.images != []
    reads store
  {
    && store.Valid() && store.closed == (old(store.closed) || i.call.Close?)
    && Tracks(store.Now(), Run(sys, EventsOf(i, old(store.closed)), store.retention))
    && reply == ReplyTo(i, old(store.View()), old(store.closed), store.retention)
  }

  method PerformAccept(store: BoltStore, i: Invocation, ghost sys: Sys) returns (reply: Reply)
    requires store.Valid() && Tracks(store.Now(), sys) && i.call.Accept?
    modifies store
    ensures Performed(store, i, sys, reply)
  {
    hide Consistent, AcceptTx, Next, ValidEnvelope, ReceiptKey;
    var Accept(env, now, admitted) := i.call;
    ghost var before := store.Now();
    var r := store.Accept(i.ctx, env, now, admitted, i.syncOk);
    reply := AcceptReply(r);
    RunNone(sys, store.retention);
    if ValidEnvelope(env) && Blocked(i.ctx, store.closed).None? {
      AcceptIsNext(before, sys, env, now, admitted, i.syncOk, store.retention, store.Now(), r);
      RunOne(sys, Event(AcceptOp(env, now, admitted), i.syncOk), store.retention);
    }
  }

  /** The calls that record the outcome of a delivery. */
  method PerformMark(store: BoltStore, i: Invocation, ghost sys: Sys) returns (reply: Reply)
    requires store.Valid() && Tracks(store.Now(), sys)
    requires i.call.MarkRetry? || i.call.MarkDelivered? || i.call.MarkQuarantined?
    modifies store
    ensures Performed(store, i, sys, reply)
  {
    hide Consistent, Settles, SettledReply, RetryTx, DeliveredTx, QuarantinedTx, Run, Next, ReceiptKey, Blocked;
    RunNone(sys, store.retention);
    ghost var before := store.Now();
    match i.call {
      case MarkRetry(a, b, nextRetry, lastError) =>
        var r := store.MarkRetry(i.ctx, a, b, nextRetry, lastError, i.syncOk);
        reply := DoneReply(r);
        if nextRetry != ZERO_TIME {
          SettledTracks(before, sys, i, store.closed, store.retention,
                        RetryTx(before.live, ReceiptKey(a, b), nextRetry, lastError), store.Now(), r);
        }
      case MarkDelivered(a, b, at, clock) =>
        var r := store.MarkDelivered(i.ctx, a, b, at, clock, i.syncOk);
        reply := DoneReply(r);
        SettledTracks(before, sys, i, store.closed, store.retention,
                      DeliveredTx(before.live, ReceiptKey(a, b), Given(at, clock)), store.Now(), r);
      case MarkQuarantined(a, b, errorClass, at, clock) =>
        var r := store.MarkQuarantined(i.ctx, a, b, errorClass, at, clock, i.syncOk);
        reply := DoneReply(r);
        if errorClass != "" {
          SettledTracks(before, sys, i, store.closed, store.retention,
                        QuarantinedTx(before.live, ReceiptKey(a, b), errorClass, Given(at, clock)), store.Now(), r);
        }
    }
  }

  method PerformReplay(store: BoltStore, i: Invocation, ghost sys: Sys) returns (reply: Reply)
    requires store.Valid() && Tracks(store.Now(), sys)
    requires i.call.ReplayQuarantined? || i.call.ReplayAllQuarantined?
    modifies store
    ensures Performed(store, i, sys, reply)
  {
    hide Consistent, Settles, SettledReply, ReplayTx, ReplayAllTx, Run, Next, ReceiptKey, Blocked;
    ghost var before := store.Now();
    match i.call {
      case ReplayQuarantined(a, b, admitted) =>
        var r := store.ReplayQuarantined(i.ctx, a, b, admitted, i.syncOk);
        reply := DoneReply(r);
        SettledTracks(before, sys, i, store.closed, store.retention,
                      ReplayTx(before.live, ReceiptKey(a, b), admitted), store.Now(), r);
      case ReplayAllQuarantined(admits) =>
        var r := store.ReplayAllQuarantined(i.ctx, admits, i.syncOk);
        reply := CountReply(Counted(r));
        SettledTracks(before, sys, i, store.closed, store.retention, ReplayAllTx(before.live, admits), store.Now(), r);
    }
  }

  method PerformUpkeep(store: BoltStore, i: Invocation, ghost sys: Sys) returns (reply: Reply)
    requires store.Valid() && Tracks(store.Now(), sys)
    requires i.call.CollectReceipts? || i.call.Sync? || i.call.Close?
    modifies store
    ensures Performed(store, i, sys, reply)
  {
    hide Consistent, CollectSettles, CollectReply, CollectTx;
    RunNone(sys, store.retention);
    RunOne(sys, Event(SyncOp, i.syncOk), store.retention);
    ghost var before := store.Now();
    match i.call {
      case CollectReceipts(now) =>
        var r := store.CollectReceipts(i.ctx, now, i.syncOk);
        reply := CountReply(Counted(r));
        CollectTracks(before, sys, i, store.closed, store.retention, store.Now(), r);
      case Sync =>
        var r := store.Sync(i.syncOk);
        reply := DoneReply(r);
      case Close =>
        var r := store.Close(i.syncOk);
        reply := DoneReply(r);
    }
  }

  lemma RunNone(sys: Sys, retention: Retention)
    requires sys.images != []
    ensures Run(sys, [], retention) == sys
  {
  }

  lemma CollectTracks(before: Image, sys: Sys, i: Invocation, closed: bool, retention: Retention, after: Image, r: Result<nat, Error>)
    requires Tracks(before, sys) && Consistent(before.live) && i.call.CollectReceipts?
    requires CollectSettles(Blocked(i.ctx, closed), i.call.now, retention, i.syncOk, before, after, r)
    ensures Tracks(after, Run(sys, EventsOf(i, closed), retention))
    ensures Counted(r) == CollectReply(Blocked(i.ctx, closed), before.live, i.call.now, retention, i.syncOk)
  {
    hide Consistent, Next, CollectTx;
    if Blocked(i.ctx, closed).None? {
      CollectIsNext(before, sys, i.call.now, i.syncOk, retention, after, r);
      RunOne(sys, Event(CollectOp(i.call.now), i.syncOk), retention);
    }
  }

  /** One call on a store is one step of the run it tracks, or none, and is answered as due. */
  method Perform(store: BoltStore, i: Invocation, ghost sys: Sys) returns (reply: Reply)
    requires store.Valid() && Tracks(store.Now(), sys)
    modifies store
    ensures Performed(store, i, sys, reply)
  {
    hide Consistent, EventsOf, Run, ReplyTo;
    match i.call {
      case Accept(_, _, _) => reply := PerformAccept(store, i, sys);
      case MarkRetry(_, _, _, _) | MarkDelivered(_, _, _, _) | MarkQuarantined(_, _, _, _, _) => reply := PerformMark(store, i, sys);
      case ReplayQuarantined(_, _, _) | ReplayAllQuarantined(_) => reply := PerformReplay(store, i, sys);
      case CollectReceipts(_) | Sync | Close => reply := PerformUpkeep(store, i, sys);
    }
  }

  lemma NextCall(calls: seq<Invocation>, n: nat, closed: bool)
    requires n < |calls|
    ensures EventsOfAll(calls[..n + 1], closed) == EventsOfAll(calls[..n], closed) + EventsOf(calls[n], ClosedAfter(calls[..n], closed))
    ensures ClosedAfter(calls[..n + 1], closed) == (ClosedAfter(calls[..n], closed) || calls[n].call.Close?)
  {
    assert calls[..n + 1][..n] == calls[..n];
    hide EventsOf;
  }

  /**
   Any sequence of calls, whatever fails in between: the store ends where the run
   of their events leads, and answers every call as is due in the state it found.
   */
  method PerformAll(store: BoltStore, calls: seq<Invocation>, ghost sys: Sys) returns (replies: seq<Reply>)
    requires store.Valid() && Tracks(store.Now(), sys)
    modifies store
    ensures store.Valid() && store.closed == ClosedAfter(calls, old(store.closed))
    ensures Tracks(store.Now(), Run(sys, EventsOfAll(calls, old(store.closed)), store.retention))
    ensures RepliesAreDue(replies, sys, calls, old(store.closed), store.retention)
  {
    hide Consistent, EventsOf, EventsOfAll, ClosedAfter, Run, ReplyTo;
    replies := [];
    ghost var closed := store.closed;
    NoCalls(sys, calls, closed, store.retention);
    for n := 0 to |calls|
      invariant store.Valid() && store.closed == ClosedAfter(calls[..n], closed)
      invariant Tracks(store.Now(), Before(sys, calls, n, closed, store.retention))
      invariant |replies| == n
      invariant forall k :: 0 <= k < n ==>
        replies[k] == ReplyTo(calls[k], Live(Before(sys, calls, k, closed, store.retention)), ClosedAfter(calls[..k], closed), store.retention)
    {
      ghost var here := Before(sys, calls, n, closed, store.retention);
      var reply := Perform(store, calls[n], here);
      NextCall(calls, n, closed);
      RunConcat(sys, EventsOfAll(calls[..n], closed), EventsOf(calls[n], ClosedAfter(calls[..n], closed)), store.retention);
      replies := replies + [reply];
    }
    assert calls[..|calls|] == calls;
  }

  lemma NoCalls(sys: Sys, calls: seq<Invocation>, closed: bool, retention: Retention)
    requires sys.images != []
    ensures Before(sys, calls, 0, closed, retention) == sys && ClosedAfter(calls[..0], closed) == closed
  {
  }
}
