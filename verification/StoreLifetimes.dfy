/**
 Durability as a client of the store sees it: what was answered "accepted", or
 "duplicate" with no failed fsync outstanding, stays owned by the store and its
 disk, through any further calls, restarts and crashes, until a collection finds
 its receipt expired.
 */
module StoreLifetimes {
  import opened Keys
  import opened InboxModel
  import opened BoltStore
  import opened InboxRuns
  import opened StoreRuns

  // --- One event -----------------------------------------------------------

  /** A collection that finds the receipt of `key` expired. */
  ghost predicate Forgets(s: State, op: Op, key: Key, retention: Retention) {
    op.CollectOp? && key in s.receipts && Expired(s.receipts[key], op.now, retention)
  }

  /** An acknowledgement stays what it is, crashes included, unless it is forgotten. */
  lemma AckStays(sys: Sys, ev: Event, key: Key, retention: Retention)
    requires SysOk(sys) && key in sys.acked && !Forgets(Live(sys), ev.op, key, retention)
    ensures key in Next(sys, ev, retention).acked && Next(sys, ev, retention).acked[key] == sys.acked[key]
  {
    hide Consistent, ImagesConsistent, SyncedKeysAreEverywhere, ImagesAfter, UnsyncedAfter;
    assert Holds(Live(sys), key, sys.acked[key]);
  }

  // --- One call ------------------------------------------------------------

  /** The client may rely on this reply: its upload is durable from here on. */
  ghost predicate Acknowledges(reply: Reply, i: Invocation, sys: Sys) {
    && i.call.Accept? && reply.AcceptReply? && reply.upload.Ok?
    && (reply.upload.value.outcome.Accepted? || EnvelopeKey(i.call.env) !in sys.unsynced)
  }

  function KeyOf(i: Invocation): Key
    requires i.call.Accept?
  {
    EnvelopeKey(i.call.env)
  }

  function PromiseOf(reply: Reply, i: Invocation): Ack
    requires i.call.Accept? && reply.AcceptReply? && reply.upload.Ok?
  {
    Ack(i.call.env.payloadSha256, reply.upload.value.acceptedAt)
  }

  lemma DueReplyAcknowledges(sys: Sys, i: Invocation, reply: Reply, closed: bool, retention: Retention)
    requires sys.images != [] && reply == ReplyTo(i, Live(sys), closed, retention) && Acknowledges(reply, i, sys)
    ensures var next := Run(sys, EventsOf(i, closed), retention);
      KeyOf(i) in next.acked && next.acked[KeyOf(i)] == PromiseOf(reply, i)
  {
    hide ReceiptKey, ValidEnvelope, ImagesAfter, UnsyncedAfter;
    var Accept(env, now, admitted) := i.call;
    RunOne(sys, Event(AcceptOp(env, now, admitted), i.syncOk), retention);
    hide Run;
  }

  lemma CallKeepsAck(sys: Sys, i: Invocation, closed: bool, key: Key, retention: Retention)
    requires SysOk(sys) && key in sys.acked
    requires forall ev :: ev in EventsOf(i, closed) ==> !Forgets(Live(sys), ev.op, key, retention)
    ensures var next := Run(sys, EventsOf(i, closed), retention);
      SysOk(next) && key in next.acked && next.acked[key] == sys.acked[key]
  {
    RunKeepsOk(sys, EventsOf(i, closed), retention);
    RunNone(sys, retention);
    if EventsOf(i, closed) != [] {
      var ev := EventsOf(i, closed)[0];
      RunOne(sys, ev, retention);
      hide SysOk, Next, Run, Forgets;
      AckStays(sys, ev, key, retention);
    }
  }

  // --- A sequence of calls -------------------------------------------------

  /** The `m`-th call does not collect the receipt of `key`. */
  ghost predicate KeptBy(sys: Sys, calls: seq<Invocation>, m: nat, closed: bool, key: Key, retention: Retention)
    requires sys.images != [] && m < |calls|
  {
    forall ev :: ev in EventsOf(calls[m], ClosedAfter(calls[..m], closed)) ==>
      !Forgets(Live(Before(sys, calls, m, closed, retention)), ev.op, key, retention)
  }

  /** No call from the `from`-th on collects the receipt of `key`. */
  ghost predicate KeptFrom(sys: Sys, calls: seq<Invocation>, from: nat, closed: bool, key: Key, retention: Retention)
    requires sys.images != []
  {
    forall m :: from <= m < |calls| ==> KeptBy(sys, calls, m, closed, key, retention)
  }

  lemma BeforeNext(sys: Sys, calls: seq<Invocation>, n: nat, closed: bool, retention: Retention)
    requires sys.images != [] && n < |calls|
    ensures Before(sys, calls, n + 1, closed, retention)
      == Run(Before(sys, calls, n, closed, retention), EventsOf(calls[n], ClosedAfter(calls[..n], closed)), retention)
  {
    NextCall(calls, n, closed);
    RunConcat(sys, EventsOfAll(calls[..n], closed), EventsOf(calls[n], ClosedAfter(calls[..n], closed)), retention);
    hide Run, EventsOf, EventsOfAll, ClosedAfter;
  }

  lemma BeforeIsOk(sys: Sys, calls: seq<Invocation>, n: nat, closed: bool, retention: Retention)
    requires SysOk(sys) && n <= |calls|
    ensures SysOk(Before(sys, calls, n, closed, retention))
  {
    RunKeepsOk(sys, EventsOfAll(calls[..n], closed), retention);
    hide SysOk, Run, EventsOfAll;
  }

  lemma AckStaysOnce(sys: Sys, calls: seq<Invocation>, n: nat, closed: bool, key: Key, retention: Retention)
    requires SysOk(sys) && n < |calls| && KeptBy(sys, calls, n, closed, key, retention)
    requires key in Before(sys, calls, n, closed, retention).acked
    ensures var here, next := Before(sys, calls, n, closed, retention), Before(sys, calls, n + 1, closed, retention);
      key in next.acked && next.acked[key] == here.acked[key]
  {
    BeforeIsOk(sys, calls, n, closed, retention);
    BeforeNext(sys, calls, n, closed, retention);
    hide SysOk, Run, EventsOf, ClosedAfter, Forgets, Before;
    CallKeepsAck(Before(sys, calls, n, closed, retention), calls[n], ClosedAfter(calls[..n], closed), key, retention);
  }

  lemma {:induction false} AckStaysFrom(sys: Sys, calls: seq<Invocation>, from: nat, n: nat, closed: bool, key: Key, retention: Retention)
    requires SysOk(sys) && from <= n <= |calls| && KeptFrom(sys, calls, from, closed, key, retention)
    requires key in Before(sys, calls, from, closed, retention).acked
    ensures var earlier, later := Before(sys, calls, from, closed, retention), Before(sys, calls, n, closed, retention);
      key in later.acked && later.acked[key] == earlier.acked[key]
    decreases n - from
  {
    if from < n {
      KeptFromNext(sys, calls, from, closed, key, retention);
      hide *;
      AckStaysOnce(sys, calls, from, closed, key, retention);
      AckStaysFrom(sys, calls, from + 1, n, closed, key, retention);
    }
  }

  lemma KeptFromNext(sys: Sys, calls: seq<Invocation>, from: nat, closed: bool, key: Key, retention: Retention)
    requires sys.images != [] && from < |calls| && KeptFrom(sys, calls, from, closed, key, retention)
    ensures KeptBy(sys, calls, from, closed, key, retention) && KeptFrom(sys, calls, from + 1, closed, key, retention)
  {
    hide KeptBy;
  }

  /** An acknowledging reply, its upload not collected since, is an acknowledgement after all the calls. */
  lemma AnsweredIsAcked(sys: Sys, calls: seq<Invocation>, replies: seq<Reply>, n: nat, closed: bool, retention: Retention)
    requires SysOk(sys) && RepliesAreDue(replies, sys, calls, closed, retention) && n < |calls|
    requires Acknowledges(replies[n], calls[n], Before(sys, calls, n, closed, retention))
    requires KeptFrom(sys, calls, n + 1, closed, KeyOf(calls[n]), retention)
    ensures var after := Run(sys, EventsOfAll(calls, closed), retention);
      KeyOf(calls[n]) in after.acked && after.acked[KeyOf(calls[n])] == PromiseOf(replies[n], calls[n])
  {
    assert sys.images != [];
    hide SysOk, ReplyTo, Run, EventsOf, ClosedAfter, KeptFrom;
    DueReplyAcknowledges(Before(sys, calls, n, closed, retention), calls[n], replies[n], ClosedAfter(calls[..n], closed), retention);
    BeforeNext(sys, calls, n, closed, retention);
    AckStaysFrom(sys, calls, n + 1, |calls|, closed, KeyOf(calls[n]), retention);
    assert calls[..|calls|] == calls;
  }

  /** The `n`-th reply of an opened store acknowledges its upload, and no later call collects it. */
  ghost predicate Promised(sys: Sys, calls: seq<Invocation>, replies: seq<Reply>, n: nat, retention: Retention)
    requires sys.images != []
  {
    && n < |calls| && n < |replies|
    && Acknowledges(replies[n], calls[n], Before(sys, calls, n, false, retention))
    && KeptFrom(sys, calls, n + 1, false, KeyOf(calls[n]), retention)
  }

  /** Every image a crash may leave owns what is acknowledged. */
  lemma AckedIsOwned(sys: Sys, key: Key)
    requires SysOk(sys) && key in sys.acked
    ensures forall i :: 0 <= i < |sys.images| ==> Owned(sys.images[i], key, sys.acked[key])
  {
    assert EveryImage(sys.images, key, AckOf(Live(sys).receipts[key]));
    forall i | 0 <= i < |sys.images| ensures Owned(sys.images[i], key, sys.acked[key]) {
      KnownIsOwned(sys.images[i], key, sys.acked[key]);
    }
  }

  /** The buckets and the disk image of the store own this upload. */
  ghost predicate StoreOwns(store: BoltStore, key: Key, promise: Ack)
    reads store
  {
    Owned(store.View(), key, promise) && Owned(store.durable, key, promise)
  }

  lemma TrackedAckIsOwned(store: BoltStore, sys: Sys, key: Key)
    requires SysOk(sys) && Tracks(store.Now(), sys) && key in sys.acked
    ensures StoreOwns(store, key, sys.acked[key])
  {
    AckedIsOwned(sys, key);
    hide Owned, SysOk;
  }

  /**
   A process life: the store is opened on the image that an earlier run left, and
   called any number of times. At the end its buckets and its disk own every upload
   it acknowledged and every upload acknowledged in earlier lives, as long as no
   collection found them expired.
   */
  method ServeLife(path: string, options: StoreOptions, image: State, calls: seq<Invocation>, ghost sys: Sys)
    returns (store: BoltStore, replies: seq<Reply>)
    requires path != "" && !options.Negative()
    requires SysOk(sys) && sys.images == [image]
    ensures fresh(store) && store.Valid() && store.retention == RetentionOf(options)
    ensures Tracks(store.Now(), Run(sys, EventsOfAll(calls, false), store.retention))
    ensures RepliesAreDue(replies, sys, calls, false, store.retention)
    ensures forall n: nat :: Promised(sys, calls, replies, n, store.retention) ==>
      StoreOwns(store, KeyOf(calls[n]), PromiseOf(replies[n], calls[n]))
    ensures forall key :: key in sys.acked && KeptFrom(sys, calls, 0, false, key, store.retention) ==>
      StoreOwns(store, key, sys.acked[key])
  {
    LiveIsConsistent(sys);
    hide Consistent, SysOk, Run, EventsOfAll, KeptFrom, Acknowledges, StoreOwns, RepliesAreDue;
    var file := Open(path, options, image, true, true, true);
    store := file.value;
    replies := PerformAll(store, calls, sys);
    LifeOwns(store, sys, calls, replies);
  }

  lemma LifeOwns(store: BoltStore, sys: Sys, calls: seq<Invocation>, replies: seq<Reply>)
    requires SysOk(sys) && Tracks(store.Now(), Run(sys, EventsOfAll(calls, false), store.retention))
    requires RepliesAreDue(replies, sys, calls, false, store.retention)
    ensures forall n: nat :: Promised(sys, calls, replies, n, store.retention) ==>
      StoreOwns(store, KeyOf(calls[n]), PromiseOf(replies[n], calls[n]))
    ensures forall key :: key in sys.acked && KeptFrom(sys, calls, 0, false, key, store.retention) ==>
      StoreOwns(store, key, sys.acked[key])
  {
    var after := Run(sys, EventsOfAll(calls, false), store.retention);
    RunKeepsOk(sys, EventsOfAll(calls, false), store.retention);
    hide SysOk, Run, EventsOfAll, KeptFrom, StoreOwns, ReplyTo, Tracks;
    forall n: nat | Promised(sys, calls, replies, n, store.retention)
      ensures StoreOwns(store, KeyOf(calls[n]), PromiseOf(replies[n], calls[n]))
    {
      AnsweredIsAcked(sys, calls, replies, n, false, store.retention);
      TrackedAckIsOwned(store, after, KeyOf(calls[n]));
    }
    forall key | key in sys.acked && KeptFrom(sys, calls, 0, false, key, store.retention)
      ensures StoreOwns(store, key, sys.acked[key])
    {
      EarlierAckStays(sys, calls, key, store.retention);
      TrackedAckIsOwned(store, after, key);
    }
  }

  lemma EarlierAckStays(sys: Sys, calls: seq<Invocation>, key: Key, retention: Retention)
    requires SysOk(sys) && key in sys.acked && KeptFrom(sys, calls, 0, false, key, retention)
    ensures var after := Run(sys, EventsOfAll(calls, false), retention);
      key in after.acked && after.acked[key] == sys.acked[key]
  {
    NoCalls(sys, calls, false, retention);
    hide SysOk, Run, KeptFrom;
    AckStaysFrom(sys, calls, 0, |calls|, false, key, retention);
    assert calls[..|calls|] == calls;
  }

  // --- Many lives of one inbox ---------------------------------------------

  /** One process life: the image it finds, what it is called for, and how it ends. */
  datatype Life = Life(image: State, calls: seq<Invocation>, ending: Op)

  ghost function AfterLife(sys: Sys, life: Life, retention: Retention): Sys
    requires sys.images != []
    ensures AfterLife(sys, life, retention).images != []
  {
    Next(Run(sys, EventsOfAll(life.calls, false), retention), Event(life.ending, true), retention)
  }

  /** The run before the `k`-th life. */
  ghost function SysAt(lives: seq<Life>, k: nat, retention: Retention): Sys
    requires k <= |lives|
    ensures SysAt(lives, k, retention).images != []
    decreases k
  {
    if k == 0 then INITIAL else AfterLife(SysAt(lives, k - 1, retention), lives[k - 1], retention)
  }

  /** Each life ends by a restart or a crash and finds the one image the run has left. */
  ghost predicate Succeed(lives: seq<Life>, retention: Retention) {
    forall k :: 0 <= k < |lives| ==>
      && (lives[k].ending.CrashOp? || lives[k].ending.RestartOp?)
      && SysAt(lives, k, retention).images == [lives[k].image]
  }

  lemma {:induction false} LivesAreOk(lives: seq<Life>, k: nat, retention: Retention)
    requires k <= |lives|
    ensures SysOk(SysAt(lives, k, retention))
    decreases k
  {
    hide SysOk, AfterLife;
    if k == 0 {
      InitialIsOk();
    } else {
      var last := k - 1;
      LivesAreOk(lives, last, retention);
      LifeKeepsOk(SysAt(lives, last, retention), lives[last], retention);
    }
  }

  lemma LifeKeepsOk(sys: Sys, life: Life, retention: Retention)
    requires SysOk(sys)
    ensures SysOk(AfterLife(sys, life, retention))
  {
    RunKeepsOk(sys, EventsOfAll(life.calls, false), retention);
    hide SysOk, Next, Run, EventsOfAll;
    NextKeepsOk(Run(sys, EventsOfAll(life.calls, false), retention), Event(life.ending, true), retention);
  }

  /** However a life ends, one image is left for the next; a crash picks any that it could leave. */
  lemma OneImageIsLeft(sys: Sys, life: Life, retention: Retention)
    requires sys.images != [] && (life.ending.CrashOp? || life.ending.RestartOp?)
    ensures |AfterLife(sys, life, retention).images| == 1
    ensures AfterLife(sys, life, retention).images[0] in Run(sys, EventsOfAll(life.calls, false), retention).images
    ensures AfterLife(sys, life, retention).acked == Run(sys, EventsOfAll(life.calls, false), retention).acked
  {
    hide Run, EventsOfAll;
  }

  method AnswerLife(path: string, options: StoreOptions, life: Life, ghost sys: Sys) returns (replies: seq<Reply>)
    requires path != "" && !options.Negative()
    requires SysOk(sys) && sys.images == [life.image]
    ensures RepliesAreDue(replies, sys, life.calls, false, RetentionOf(options))
  {
    assert sys.images != [];
    hide SysOk, RepliesAreDue, RetentionOf, Promised, KeptFrom, StoreOwns, Tracks;
    var store, answers := ServeLife(path, options, life.image, life.calls, sys);
    return answers;
  }

  /** Any number of lives, one after the other, each answering every call as due. */
  method ServeLives(path: string, options: StoreOptions, lives: seq<Life>) returns (replies: seq<seq<Reply>>)
    requires path != "" && !options.Negative() && Succeed(lives, RetentionOf(options))
    ensures |replies| == |lives|
    ensures forall k :: 0 <= k < |lives| ==>
      RepliesAreDue(replies[k], SysAt(lives, k, RetentionOf(options)), lives[k].calls, false, RetentionOf(options))
  {
    hide SysOk, SysAt, RepliesAreDue, RetentionOf;
    replies := [];
    for k := 0 to |lives|
      invariant |replies| == k
      invariant forall j :: 0 <= j < k ==>
        RepliesAreDue(replies[j], SysAt(lives, j, RetentionOf(options)), lives[j].calls, false, RetentionOf(options))
    {
      LivesAreOk(lives, k, RetentionOf(options));
      ghost var sys := SysAt(lives, k, RetentionOf(options));
      var answers := AnswerLife(path, options, lives[k], sys);
      replies := replies + [answers];
    }
  }

  /** No life from the `from`-th up to the `to`-th collects the receipt of `key`. */
  ghost predicate KeptThrough(lives: seq<Life>, from: nat, to: nat, key: Key, retention: Retention)
    requires to <= |lives|
  {
    forall k :: from <= k < to ==> KeptFrom(SysAt(lives, k, retention), lives[k].calls, 0, false, key, retention)
  }

  lemma LifeKeepsAck(sys: Sys, life: Life, key: Key, retention: Retention)
    requires SysOk(sys) && (life.ending.CrashOp? || life.ending.RestartOp?)
    requires key in sys.acked && KeptFrom(sys, life.calls, 0, false, key, retention)
    ensures var after := AfterLife(sys, life, retention);
      key in after.acked && after.acked[key] == sys.acked[key]
  {
    EarlierAckStays(sys, life.calls, key, retention);
    OneImageIsLeft(sys, life, retention);
    hide *;
  }

  lemma LifeAt(lives: seq<Life>, k: nat, to: nat, key: Key, retention: Retention)
    requires k < to <= |lives| && Succeed(lives, retention)
    ensures lives[k].ending.CrashOp? || lives[k].ending.RestartOp?
    ensures SysAt(lives, k + 1, retention) == AfterLife(SysAt(lives, k, retention), lives[k], retention)
    ensures KeptThrough(lives, k, to, key, retention) ==>
      KeptFrom(SysAt(lives, k, retention), lives[k].calls, 0, false, key, retention) && KeptThrough(lives, k + 1, to, key, retention)
  {
    hide KeptFrom, AfterLife;
  }

  lemma {:induction false} LivesKeepAck(lives: seq<Life>, from: nat, to: nat, key: Key, retention: Retention)
    requires from <= to <= |lives| && Succeed(lives, retention) && KeptThrough(lives, from, to, key, retention)
    requires key in SysAt(lives, from, retention).acked
    ensures key in SysAt(lives, to, retention).acked
    ensures SysAt(lives, to, retention).acked[key] == SysAt(lives, from, retention).acked[key]
    decreases |lives| - from
  {
    hide *;
    if from < to {
      LivesAreOk(lives, from, retention);
      LifeAt(lives, from, to, key, retention);
      LifeKeepsAck(SysAt(lives, from, retention), lives[from], key, retention);
      LivesKeepAck(lives, from + 1, to, key, retention);
    }
  }

  /** The reply promised to upload `n` of life `k` is an acknowledgement when the next life begins. */
  lemma PromiseReachesNextLife(lives: seq<Life>, replies: seq<Reply>, k: nat, n: nat, retention: Retention)
    requires k < |lives| && Succeed(lives, retention)
    requires RepliesAreDue(replies, SysAt(lives, k, retention), lives[k].calls, false, retention)
    requires Promised(SysAt(lives, k, retention), lives[k].calls, replies, n, retention)
    ensures n < |lives[k].calls| && lives[k].calls[n].call.Accept?
    ensures var key, next := KeyOf(lives[k].calls[n]), SysAt(lives, k + 1, retention);
      key in next.acked && next.acked[key] == PromiseOf(replies[n], lives[k].calls[n])
  {
    LivesAreOk(lives, k, retention);
    LifeAt(lives, k, k + 1, KeyOf(lives[k].calls[n]), retention);
    hide SysOk, SysAt, RepliesAreDue, Acknowledges, AfterLife, KeptFrom, Succeed, Run;
    AnsweredIsAcked(SysAt(lives, k, retention), lives[k].calls, replies, n, false, retention);
    OneImageIsLeft(SysAt(lives, k, retention), lives[k], retention);
  }

  /**
   What the `n`-th reply of the `k`-th life promised is owned by the image that any
   later life finds, through restarts and crashes, unless it was collected as expired.
   */
  lemma AnsweredOutlivesTheProcess(lives: seq<Life>, replies: seq<Reply>, k: nat, n: nat, to: nat, retention: Retention)
    requires k < to <= |lives| && Succeed(lives, retention)
    requires RepliesAreDue(replies, SysAt(lives, k, retention), lives[k].calls, false, retention)
    requires Promised(SysAt(lives, k, retention), lives[k].calls, replies, n, retention)
    requires KeptThrough(lives, k + 1, to, KeyOf(lives[k].calls[n]), retention)
    ensures var images := SysAt(lives, to, retention).images;
      |images| == 1 && Owned(images[0], KeyOf(lives[k].calls[n]), PromiseOf(replies[n], lives[k].calls[n]))
  {
    hide *;
    PromiseReachesNextLife(lives, replies, k, n, retention);
    var key := KeyOf(lives[k].calls[n]);
    LivesKeepAck(lives, k + 1, to, key, retention);
    LivesAreOk(lives, to, retention);
    OneImageBetweenLives(lives, to, retention);
    AckedIsOwned(SysAt(lives, to, retention), key);
  }

  lemma OneImageBetweenLives(lives: seq<Life>, k: nat, retention: Retention)
    requires 0 < k <= |lives| && Succeed(lives, retention)
    ensures |SysAt(lives, k, retention).images| == 1
  {
    LifeAt(lives, k - 1, k, "", retention);
    hide *;
    OneImageIsLeft(SysAt(lives, k - 1, retention), lives[k - 1], retention);
  }
}
