/**
 The inbox store as the object the gateway holds (store.go, `BoltStore`): its
 buckets are fields that the operations update in place, and an operation that
 fails inside its transaction puts back what the transaction found.
 */
module BoltStore {
  import opened Prelude
  import opened Keys
  import opened Ordering
  import opened InboxModel
  import opened InboxInvariants

  /** What `ctx.Err()` says before the writer lock is taken and again inside the transaction. */
  datatype Context = Context(cancelledBefore: bool, cancelledInside: bool)

  /** Why an operation never reaches its transaction body, if it does not. */
  function Blocked(ctx: Context, closed: bool): Option<Error> {
    if ctx.cancelledBefore then Some(Cancelled)
    else if closed then Some(Closed)
    else if ctx.cancelledInside then Some(Cancelled)
    else None
  }

  /** The buckets and the image on disk, before and after one operation. */
  datatype Image = Image(live: State, durable: State)

  /**
   One `updateAndSync`: a blocked or aborted transaction changes nothing; a
   committed one changes the live buckets at once and the disk image exactly
   when the fsync succeeds, which is also the only way to report success.
   */
  ghost predicate Settles<R>(blocked: Option<Error>, tx: Tx<R>, syncOk: bool, before: Image, after: Image, reply: Result<R, Error>) {
    match blocked
    case Some(error) => reply == Err(error) && after == before
    case None =>
      match tx
      case Abort(error) => reply == Err(error) && after == before
      case Commit(s, value) =>
        if syncOk then reply == Ok(value) && after == Image(s, s)
        else reply == Err(SyncFailed) && after == Image(s, before.durable)
  }

  /**
   An operation on a cancelled context, or on a closed store, answers so and
   changes nothing; any other succeeds exactly if its transaction commits and the
   fsync does, and then live and durable contents are what it wrote.
   */
  lemma SettlesByCause<R>(ctx: Context, closed: bool, tx: Tx<R>, syncOk: bool, before: Image, after: Image, reply: Result<R, Error>)
    requires Settles(Blocked(ctx, closed), tx, syncOk, before, after, reply)
    ensures ctx.cancelledBefore || (!closed && ctx.cancelledInside) ==> reply == Err(Cancelled) && after == before
    ensures !ctx.cancelledBefore && closed ==> reply == Err(Closed) && after == before
    ensures !ctx.cancelledBefore && !closed && !ctx.cancelledInside ==>
      && (reply.Ok? <==> tx.Commit? && syncOk)
      && (reply.Ok? ==> reply.value == tx.reply && after.live == tx.state && after.durable == tx.state)
      && (tx.Commit? ==> after.live == tx.state)
      && (tx.Abort? ==> reply == Err(tx.error) && after == before)
  {
  }

  /** The records by which `after` is smaller than `before`. */
  function Removed(before: State, after: State): int {
    |before.receipts| - |after.receipts| + |before.quarantine| - |after.quarantine|
  }

  ghost predicate CollectSettles(blocked: Option<Error>, now: Time, retention: Retention, syncOk: bool,
                                 before: Image, after: Image, reply: Result<nat, Error>) {
    match blocked
    case Some(error) => reply == Err(error) && after == before
    case None =>
      && after.live == CollectTx(before.live, now, retention)
      && var collected := Removed(before.live, after.live);
         if collected == 0 then reply == Ok(0) && after == before
         else if syncOk then reply == Ok(collected) && after.durable == after.live
         else reply == Err(SyncFailed) && after.durable == before.durable
  }

  /** A transaction body returned the transaction's reply, or its error. */
  ghost predicate Reports<R>(tx: Tx<R>, r: Result<R, Error>) {
    r == match tx case Commit(_, reply) => Ok(reply) case Abort(error) => Err(error)
  }

  datatype Entry = Entry(sequence: nat, key: Key)

  ghost predicate DistinctEntries(entries: seq<Entry>) {
    forall i, j :: 0 <= i < |entries| && 0 <= j < |entries| && i != j ==> entries[i].sequence != entries[j].sequence
  }

  ghost predicate AscendingEntries(entries: seq<Entry>) {
    forall i, j :: 0 <= i < j < |entries| ==> entries[i].sequence < entries[j].sequence
  }

  ghost predicate SameEntries(a: seq<Entry>, b: seq<Entry>) {
    forall x :: x in a <==> x in b
  }

  function InsertEntry(e: Entry, sorted: seq<Entry>): seq<Entry> {
    if sorted == [] || e.sequence <= sorted[0].sequence then [e] + sorted
    else [sorted[0]] + InsertEntry(e, sorted[1..])
  }

  /** The library sort of `sort.Slice`. */
  function SortEntries(entries: seq<Entry>): seq<Entry> {
    if entries == [] then [] else InsertEntry(entries[0], SortEntries(entries[1..]))
  }

  lemma {:induction false} InsertEntryMembers(e: Entry, sorted: seq<Entry>)
    ensures SameEntries(InsertEntry(e, sorted), [e] + sorted)
  {
    if sorted != [] && e.sequence > sorted[0].sequence {
      InsertEntryMembers(e, sorted[1..]);
      assert sorted == [sorted[0]] + sorted[1..];
    }
  }

  lemma {:induction false} InsertEntryAscends(e: Entry, sorted: seq<Entry>)
    requires AscendingEntries(sorted)
    requires forall x :: x in sorted ==> x.sequence != e.sequence
    ensures AscendingEntries(InsertEntry(e, sorted))
  {
    if sorted != [] {
      assert sorted[0] in sorted;
      if e.sequence > sorted[0].sequence {
        var tail := InsertEntry(e, sorted[1..]);
        assert forall x :: x in sorted[1..] ==> x in sorted;
        InsertEntryAscends(e, sorted[1..]);
        InsertEntryMembers(e, sorted[1..]);
        forall i | 0 <= i < |tail| ensures sorted[0].sequence < tail[i].sequence {
          assert tail[i] in [e] + sorted[1..];
        }
      }
    }
  }

  lemma {:induction false} SortEntriesSorts(entries: seq<Entry>)
    requires DistinctEntries(entries)
    ensures AscendingEntries(SortEntries(entries)) && SameEntries(SortEntries(entries), entries)
  {
    if entries != [] {
      var tail := SortEntries(entries[1..]);
      SortEntriesSorts(entries[1..]);
      assert entries == [entries[0]] + entries[1..];
      forall x | x in tail ensures x.sequence != entries[0].sequence {
        assert x in entries[1..];
        var i :| 0 <= i < |entries[1..]| && entries[1..][i] == x;
        assert entries[i + 1] == x;
      }
      InsertEntryAscends(entries[0], tail);
      InsertEntryMembers(entries[0], tail);
    }
  }

  function EntryKeys(entries: seq<Entry>): seq<Key> {
    seq(|entries|, i requires 0 <= i < |entries| => entries[i].key)
  }

  /** `entries` holds one entry for every payload outside `rest`. */
  ghost predicate Gathered(entries: seq<Entry>, q: map<Key, Batch>, rest: set<Key>) {
    && DistinctEntries(entries)
    && (forall x :: x in entries ==> x.key in q && x.key !in rest && x.sequence == q[x.key].sequence)
    && (forall k :: k in q && k !in rest ==> Entry(q[k].sequence, k) in entries)
  }

  lemma GatherOne(entries: seq<Entry>, q: map<Key, Batch>, rest: set<Key>, key: Key)
    requires DistinctSequences(q) && Gathered(entries, q, rest)
    requires rest <= q.Keys && key in rest
    ensures Gathered(entries + [Entry(q[key].sequence, key)], q, rest - {key})
  {
    forall i | 0 <= i < |entries| ensures entries[i].sequence != q[key].sequence {
      assert entries[i] in entries;
    }
  }

  lemma SortedKeysAreInOrder(entries: seq<Entry>, q: map<Key, Batch>)
    requires Gathered(entries, q, {})
    ensures InAcceptanceOrder(EntryKeys(SortEntries(entries)), q)
  {
    var sorted := SortEntries(entries);
    var keys := EntryKeys(sorted);
    SortEntriesSorts(entries);
    forall i | 0 <= i < |keys| ensures keys[i] in q && sorted[i].sequence == q[keys[i]].sequence {
      assert sorted[i] in sorted;
    }
    forall k | k in q ensures k in keys {
      assert Entry(q[k].sequence, k) in sorted;
      var i :| 0 <= i < |sorted| && sorted[i] == Entry(q[k].sequence, k);
      assert keys[i] == k;
    }
  }

  lemma ExpiryIsInTables(s: State, now: Time, retention: Retention)
    ensures ExpiredKeys(s, now, retention) <= s.receipts.Keys
    ensures ExpiredPayloads(s, now, retention) <= s.quarantine.Keys
    ensures ExpiredPayloads(s, now, retention) <= s.receipts.Keys
  {
  }

  lemma WhetherExpired(s: State, now: Time, retention: Retention, key: Key)
    requires key in s.receipts
    ensures key in ExpiredKeys(s, now, retention) <==> Expired(s.receipts[key], now, retention)
    ensures key in ExpiredPayloads(s, now, retention) <==>
      key in s.quarantine && s.receipts[key].state.Quarantined? && Expired(s.receipts[key], now, retention)
  {
  }

  lemma CollectTxParts(s: State, now: Time, retention: Retention, receipts: map<Key, Receipt>, quarantine: map<Key, Batch>)
    requires receipts == s.receipts - ExpiredKeys(s, now, retention)
    requires quarantine == Capped(s.quarantine - ExpiredPayloads(s, now, retention), retention.maxQuarantine)
    ensures var s' := State(s.counter, s.batches, s.fifo, receipts, quarantine);
      && CollectTx(s, now, retention) == s'
      && Removed(s, s') == |s.receipts| - |receipts| + |s.quarantine| - |quarantine|
  {
  }

  lemma CappedBelow(q: map<Key, Batch>, maximum: nat)
    requires |q| <= maximum
    ensures Capped(q, maximum) == q
  {
  }

  /** Dropping the first of the remaining entries is one step of the cap. */
  lemma EvictStep(keys: seq<Key>, q: map<Key, Batch>, maximum: nat)
    requires keys != [] && InAcceptanceOrder(keys, q) && |q| > maximum
    ensures Capped(q, maximum) == Capped(q - {keys[0]}, maximum)
    ensures InAcceptanceOrder(keys[1..], q - {keys[0]})
    ensures |q - {keys[0]}| == |q| - 1
  {
    hide InAcceptanceOrder;
    OldestIsFirst(keys, q, Oldest(q));
  }

  /** The table `m` once the dead keys outside `unseen` are gone. */
  ghost function Swept<T>(m: map<Key, T>, dead: set<Key>, unseen: set<Key>): map<Key, T> {
    m - (dead - unseen)
  }

  lemma SweepEnds<T>(m: map<Key, T>, dead: set<Key>, unseen: set<Key>)
    requires dead <= unseen
    ensures Swept(m, dead, unseen) == m
    ensures Swept(m, dead, {}) == m - dead
  {
    assert dead - unseen == {};
    assert dead - {} == dead;
  }

  lemma VisitOne<T>(m: map<Key, T>, dead: set<Key>, unseen: set<Key>, key: Key)
    requires key in unseen && dead <= m.Keys
    ensures var before, after := Swept(m, dead, unseen), Swept(m, dead, unseen - {key});
      && (key in before <==> key in m)
      && (key in m ==> key in before && before[key] == m[key])
      && (if key in dead then after == before - {key} && |after| == |before| - 1 else after == before)
  {
    var before := Swept(m, dead, unseen);
    if key in dead {
      assert dead - (unseen - {key}) == dead - unseen + {key};
      assert |before - {key}| == |before| - 1;
    } else {
      assert dead - (unseen - {key}) == dead - unseen;
    }
  }

  class BoltStore {
    var counter: nat
    var batches: map<Key, Batch>
    var fifo: map<nat, Key>
    var receipts: map<Key, Receipt>
    var quarantine: map<Key, Batch>
    var closed: bool
    const retention: Retention
    /** The contents of the database file as of the last successful fsync. */
    ghost var durable: State

    function View(): State
      reads this
    {
      State(counter, batches, fifo, receipts, quarantine)
    }

    ghost function Now(): Image
      reads this
    {
      Image(View(), durable)
    }

    ghost predicate Valid()
      reads this
    {
      Consistent(View()) && Consistent(durable)
    }

    /** Opens the file left by a crash or a clean stop; opening ends with an fsync. */
    constructor (image: State, retention: Retention)
      requires Consistent(image)
      ensures Valid() && !closed
      ensures Now() == Image(image, image) && this.retention == retention
    {
      counter, batches, fifo := image.counter, image.batches, image.fifo;
      receipts, quarantine := image.receipts, image.quarantine;
      closed := false;
      this.retention := retention;
      durable := image;
    }

    /** bbolt's rollback of a failed transaction. */
    method Rollback(saved: State)
      modifies this`counter, this`batches, this`fifo, this`receipts, this`quarantine
      ensures View() == saved
    {
      counter, batches, fifo := saved.counter, saved.batches, saved.fifo;
      receipts, quarantine := saved.receipts, saved.quarantine;
    }

    // --- Transaction bodies: on an error the caller rolls back -------------

    method AcceptInTransaction(env: Envelope, now: Time, admitted: bool) returns (r: Result<AcceptResult, Error>)
      modifies this`counter, this`batches, this`fifo, this`receipts, this`quarantine
      ensures Reports(AcceptTx(old(View()), env, now, admitted), r)
      ensures r.Ok? ==> View() == AcceptTx(old(View()), env, now, admitted).state
    {
      var key := EnvelopeKey(env);
      if key in receipts {
        var receipt := receipts[key];
        if receipt.payloadSha256 != env.payloadSha256 { return Err(IdempotencyConflict); }
        return Ok(AcceptResult(env.batchId, Duplicate, receipt.acceptedAt));
      }
      counter := counter + 1;
      var batch := FreshBatch(env, counter, now);
      if !admitted { return Err(StorageUnavailable); }
      batches := batches[key := batch];
      fifo := fifo[counter := key];
      receipts := receipts[key := PendingReceipt(env, now)];
      return Ok(AcceptResult(env.batchId, Accepted, now));
    }

    method RetryInTransaction(key: Key, nextRetry: Time, lastError: string) returns (r: Result<(), Error>)
      modifies this`counter, this`batches, this`fifo, this`receipts, this`quarantine
      ensures Reports(RetryTx(old(View()), key, nextRetry, lastError), r)
      ensures r.Ok? ==> View() == RetryTx(old(View()), key, nextRetry, lastError).state
    {
      if key !in batches { return Err(BatchNotFound); }
      var batch := batches[key];
      batch := batch.(attempts := batch.attempts + 1);
      batch := batch.(lastError := lastError);
      batch := batch.(nextRetry := nextRetry);
      batches := batches[key := batch];
      return Ok(());
    }

    method UpdateReceipt(key: Key, state: ReceiptState, at: Time, errorClass: string) returns (r: Result<(), Error>)
      modifies this`receipts
      ensures r == if key in receipts then Ok(()) else Err(ReceiptMissing)
      ensures receipts == if key in old(receipts)
        then old(receipts)[key := Completed(old(receipts)[key], state, at, errorClass)]
        else old(receipts)
    {
      if key !in receipts { return Err(ReceiptMissing); }
      receipts := receipts[key := Completed(receipts[key], state, at, errorClass)];
      return Ok(());
    }

    method DeliverInTransaction(key: Key, at: Time) returns (r: Result<(), Error>)
      modifies this`counter, this`batches, this`fifo, this`receipts, this`quarantine
      ensures Reports(DeliveredTx(old(View()), key, at), r)
      ensures r.Ok? ==> View() == DeliveredTx(old(View()), key, at).state
    {
      if key !in batches { return Err(BatchNotFound); }
      var batch := batches[key];
      batches := batches - {key};
      fifo := fifo - {batch.sequence};
      r := UpdateReceipt(key, Delivered, at, "");
    }

    method QuarantineInTransaction(key: Key, errorClass: string, at: Time) returns (r: Result<(), Error>)
      modifies this`counter, this`batches, this`fifo, this`receipts, this`quarantine
      ensures Reports(QuarantinedTx(old(View()), key, errorClass, at), r)
      ensures r.Ok? ==> View() == QuarantinedTx(old(View()), key, errorClass, at).state
    {
      if key !in batches { return Err(BatchNotFound); }
      var batch := batches[key];
      quarantine := quarantine[key := batch];
      batches := batches - {key};
      fifo := fifo - {batch.sequence};
      r := UpdateReceipt(key, Quarantined, at, errorClass);
    }

    method ReplayInTransaction(key: Key, admitted: bool) returns (r: Result<(), Error>)
      modifies this`counter, this`batches, this`fifo, this`receipts, this`quarantine
      ensures Reports(ReplayTx(old(View()), key, admitted), r)
      ensures r.Ok? ==> View() == ReplayTx(old(View()), key, admitted).state
    {
      if key !in quarantine { return Err(BatchNotFound); }
      var batch := quarantine[key];
      counter := counter + 1;
      var requeued := batch.(sequence := counter);
      requeued := requeued.(attempts := 0, lastError := "", nextRetry := ZERO_TIME);
      if !admitted { return Err(StorageUnavailable); }
      batches := batches[key := requeued];
      fifo := fifo[counter := key];
      quarantine := quarantine - {key};
      if key !in receipts {
        receipts := receipts[key := PendingReceipt(batch.envelope, batch.acceptedAt)];
        return Ok(());
      }
      r := UpdateReceipt(key, Pending, ZERO_TIME, "");
    }

    /** The quarantine bucket's keys sorted by sequence, as overflow eviction and replay gather them. */
    method QuarantineBySequence() returns (keys: seq<Key>)
      requires DistinctSequences(quarantine)
      ensures InAcceptanceOrder(keys, quarantine) && |keys| == |quarantine|
      ensures keys == AcceptanceOrder(quarantine)
    {
      var entries: seq<Entry> := [];
      var rest := quarantine.Keys;
      while rest != {}
        invariant rest <= quarantine.Keys
        invariant Gathered(entries, quarantine, rest)
        decreases |rest|
      {
        var key :| key in rest;
        GatherOne(entries, quarantine, rest, key);
        rest := rest - {key};
        entries := entries + [Entry(quarantine[key].sequence, key)];
      }
      SortedKeysAreInOrder(entries, quarantine);
      keys := EntryKeys(SortEntries(entries));
      AcceptanceOrderUnique(keys, quarantine);
      AcceptanceOrderLength(quarantine);
    }

    method EvictQuarantineOverflow(maximum: nat) returns (evicted: nat)
      requires DistinctSequences(quarantine)
      modifies this`quarantine
      ensures quarantine == Capped(old(quarantine), maximum)
      ensures evicted == |old(quarantine)| - |quarantine|
    {
      hide DistinctSequences, InAcceptanceOrder, Capped, AcceptanceOrder, View, Now, Valid;
      var entries := QuarantineBySequence();
      ghost var q := quarantine;
      evicted := 0;
      if |entries| <= maximum {
        CappedBelow(quarantine, maximum);
        return;
      }
      while evicted < |entries| - maximum
        invariant evicted <= |entries| - maximum
        invariant InAcceptanceOrder(entries[evicted..], quarantine)
        invariant |quarantine| == |entries| - evicted
        invariant Capped(quarantine, maximum) == Capped(q, maximum)
      {
        EvictStep(entries[evicted..], quarantine, maximum);
        assert entries[evicted..][1..] == entries[evicted + 1..];
        quarantine := quarantine - {entries[evicted]};
        evicted := evicted + 1;
      }
      CappedBelow(quarantine, maximum);
    }

    /** The cursor walk of the collector, in whatever order it visits the receipts. */
    method ExpireInTransaction(now: Time) returns (collected: nat)
      modifies this`receipts, this`quarantine
      ensures receipts == old(receipts) - ExpiredKeys(old(View()), now, retention)
      ensures quarantine == old(quarantine) - ExpiredPayloads(old(View()), now, retention)
      ensures collected == |old(receipts)| - |receipts| + |old(quarantine)| - |quarantine|
    {
      hide ExpiredKeys, ExpiredPayloads, Swept;
      ghost var s := View();
      ExpiryIsInTables(s, now, retention);
      ghost var expired, payloads := ExpiredKeys(s, now, retention), ExpiredPayloads(s, now, retention);
      var receiptCutoff := now - retention.receipts;
      var quarantineCutoff := now - retention.quarantine;
      collected := 0;
      var rest := receipts.Keys;
      SweepEnds(s.receipts, expired, rest);
      SweepEnds(s.quarantine, payloads, rest);
      while rest != {}
        invariant rest <= s.receipts.Keys
        invariant receipts == Swept(s.receipts, expired, rest)
        invariant quarantine == Swept(s.quarantine, payloads, rest)
        invariant collected == |s.receipts| - |receipts| + |s.quarantine| - |quarantine|
        decreases |rest|
      {
        var key :| key in rest;
        ghost var unseen := rest;
        rest := rest - {key};
        WhetherExpired(s, now, retention, key);
        VisitOne(s.receipts, expired, unseen, key);
        VisitOne(s.quarantine, payloads, unseen, key);
        var receipt := receipts[key];
        if receipt.completedAt == ZERO_TIME { continue; }
        match receipt.state {
          case Delivered =>
            if receipt.completedAt > receiptCutoff { continue; }
          case Quarantined =>
            if receipt.completedAt > quarantineCutoff { continue; }
            if key in quarantine {
              quarantine := quarantine - {key};
              collected := collected + 1;
            }
          case Pending => continue;
        }
        receipts := receipts - {key};
        collected := collected + 1;
      }
    }

    method CollectInTransaction(now: Time) returns (collected: nat)
      requires DistinctSequences(quarantine - ExpiredPayloads(View(), now, retention))
      modifies this`receipts, this`quarantine
      ensures View() == CollectTx(old(View()), now, retention)
      ensures collected == Removed(old(View()), View())
    {
      hide DistinctSequences, ExpiredKeys, ExpiredPayloads, Expired, Capped, Oldest, IsOldest, CollectTx, Removed;
      ghost var s := View();
      collected := ExpireInTransaction(now);
      var evicted := EvictQuarantineOverflow(retention.maxQuarantine);
      collected := collected + evicted;
      CollectTxParts(s, now, retention, receipts, quarantine);
    }

    // --- Operations --------------------------------------------------------

    method Accept(ctx: Context, env: Envelope, now: Time, admitted: bool, syncOk: bool) returns (r: Result<AcceptResult, Error>)
      requires Valid()
      modifies this
      ensures Valid() && closed == old(closed)
      ensures !ValidEnvelope(env) ==> r == Err(InvalidEnvelope) && Now() == old(Now())
      ensures ValidEnvelope(env) ==>
        var tx := AcceptTx(old(View()), env, now, admitted);
        if Blocked(ctx, closed).None? && tx.Commit? && tx.reply.outcome.Duplicate?
        then r == Ok(tx.reply) && Now() == old(Now())
        else Settles(Blocked(ctx, closed), tx, syncOk, old(Now()), Now(), r)
    {
      hide Consistent;
      if !ValidEnvelope(env) { return Err(InvalidEnvelope); }
      if Blocked(ctx, closed).Some? { return Err(Blocked(ctx, closed).value); }
      AcceptKeepsConsistency(View(), env, now, admitted);
      var saved := View();
      r := AcceptInTransaction(env, now, admitted);
      if r.Err? { Rollback(saved); return; }
      if r.value.outcome.Duplicate? { return; }
      if !syncOk { return Err(SyncFailed); }
      durable := View();
    }

    /** The head of the FIFO if it is due; later entries never overtake a delayed head. */
    method PeekEligible(cancelled: bool, now: Time) returns (r: Result<Option<Batch>, Error>)
      ensures r == if cancelled then Err(Cancelled)
                   else if closed then Err(Closed)
                   else if Queue(View()) == [] then Ok(None)
                   else if Head(View()).None? then Err(MissingBatch)
                   else Ok(if Due(Head(View()).value, now) then Head(View()) else None)
    {
      QueueAt(View());
      if cancelled { return Err(Cancelled); }
      if closed { return Err(Closed); }
      var head := First();
      if head.Err? { return Err(head.error); }
      if head.value.None? { return Ok(None); }
      var stored := head.value.value;
      if stored.nextRetry != ZERO_TIME && stored.nextRetry > now { return Ok(None); }
      return Ok(Some(stored));
    }

    /** `Cursor().First()` on the FIFO and the lookup of the batch it names. */
    method First() returns (r: Result<Option<Batch>, Error>)
      ensures r == if fifo == map[] then Ok(None)
                   else if HeadKey(View()) in batches then Ok(Some(batches[HeadKey(View())]))
                   else Err(MissingBatch)
    {
      if fifo == map[] { return Ok(None); }
      var first := Least(fifo.Keys);
      var key := fifo[first];
      if key !in batches { return Err(MissingBatch); }
      return Ok(Some(batches[key]));
    }

    method NextRetryAt(cancelled: bool) returns (r: Result<Time, Error>)
      ensures r == if cancelled then Err(Cancelled)
                   else if closed then Err(Closed)
                   else if Queue(View()) == [] then Ok(ZERO_TIME)
                   else if Head(View()).None? then Err(MissingBatch)
                   else Ok(Head(View()).value.nextRetry)
    {
      QueueAt(View());
      if cancelled { return Err(Cancelled); }
      if closed { return Err(Closed); }
      var head := First();
      if head.Err? { return Err(head.error); }
      if head.value.None? { return Ok(ZERO_TIME); }
      return Ok(head.value.value.nextRetry);
    }

    method MarkRetry(ctx: Context, accountId: string, batchId: string, nextRetry: Time, lastError: string, syncOk: bool)
      returns (r: Result<(), Error>)
      requires Valid()
      modifies this
      ensures Valid() && closed == old(closed)
      ensures nextRetry == ZERO_TIME ==> r == Err(RetryTimeRequired) && Now() == old(Now())
      ensures nextRetry != ZERO_TIME ==>
        var tx := RetryTx(old(View()), ReceiptKey(accountId, batchId), nextRetry, lastError);
        Settles(Blocked(ctx, closed), tx, syncOk, old(Now()), Now(), r)
    {
      hide Consistent;
      if nextRetry == ZERO_TIME { return Err(RetryTimeRequired); }
      if Blocked(ctx, closed).Some? { return Err(Blocked(ctx, closed).value); }
      var key := ReceiptKey(accountId, batchId);
      RetryKeepsConsistency(View(), key, nextRetry, lastError);
      var saved := View();
      r := RetryInTransaction(key, nextRetry, lastError);
      if r.Err? { Rollback(saved); return; }
      if !syncOk { return Err(SyncFailed); }
      durable := View();
    }

    method MarkDelivered(ctx: Context, accountId: string, batchId: string, deliveredAt: Time, clock: Time, syncOk: bool)
      returns (r: Result<(), Error>)
      requires Valid()
      modifies this
      ensures Valid() && closed == old(closed)
      ensures var at := if deliveredAt == ZERO_TIME then clock else deliveredAt;
        var tx := DeliveredTx(old(View()), ReceiptKey(accountId, batchId), at);
        && tx != Abort(ReceiptMissing)
        && Settles(Blocked(ctx, closed), tx, syncOk, old(Now()), Now(), r)
    {
      hide Consistent;
      var at := deliveredAt;
      if at == ZERO_TIME { at := clock; }
      var key := ReceiptKey(accountId, batchId);
      DeliveredKeepsConsistency(View(), key, at);
      if Blocked(ctx, closed).Some? { return Err(Blocked(ctx, closed).value); }
      var saved := View();
      r := DeliverInTransaction(key, at);
      if r.Err? { Rollback(saved); return; }
      if !syncOk { return Err(SyncFailed); }
      durable := View();
    }

    method MarkQuarantined(ctx: Context, accountId: string, batchId: string, errorClass: string,
                           quarantinedAt: Time, clock: Time, syncOk: bool)
      returns (r: Result<(), Error>)
      requires Valid()
      modifies this
      ensures Valid() && closed == old(closed)
      ensures errorClass == "" ==> r == Err(ErrorClassRequired) && Now() == old(Now())
      ensures errorClass != "" ==>
        var at := if quarantinedAt == ZERO_TIME then clock else quarantinedAt;
        var tx := QuarantinedTx(old(View()), ReceiptKey(accountId, batchId), errorClass, at);
        && tx != Abort(ReceiptMissing)
        && Settles(Blocked(ctx, closed), tx, syncOk, old(Now()), Now(), r)
    {
      hide Consistent;
      if errorClass == "" { return Err(ErrorClassRequired); }
      var at := quarantinedAt;
      if at == ZERO_TIME { at := clock; }
      var key := ReceiptKey(accountId, batchId);
      QuarantinedKeepsConsistency(View(), key, errorClass, at);
      if Blocked(ctx, closed).Some? { return Err(Blocked(ctx, closed).value); }
      var saved := View();
      r := QuarantineInTransaction(key, errorClass, at);
      if r.Err? { Rollback(saved); return; }
      if !syncOk { return Err(SyncFailed); }
      durable := View();
    }

    /**
     Garbage collection of terminal state. The count is the number of records
     that disappeared, and a run that removes nothing does not touch the disk.
     */
    method CollectReceipts(ctx: Context, now: Time, syncOk: bool) returns (r: Result<nat, Error>)
      requires Valid()
      modifies this
      ensures Valid() && closed == old(closed)
      ensures CollectSettles(Blocked(ctx, closed), now, retention, syncOk, old(Now()), Now(), r)
      ensures Blocked(ctx, closed).None? ==> CollectedByAge(old(View()), View(), now, retention)
    {
      hide Consistent, DistinctSequences, CollectTx, CollectedByAge;
      CollectGoesByAge(View(), now, retention);
      if Blocked(ctx, closed).Some? { return Err(Blocked(ctx, closed).value); }
      ghost var s := View();
      CollectKeepsConsistency(s, now, retention);
      ExpiryKeepsDistinct(s, now, retention);
      var collected := CollectInTransaction(now);
      if collected == 0 {
        CollectedNothing(s, now, retention);
        return Ok(0);
      }
      if !syncOk { return Err(SyncFailed); }
      durable := View();
      return Ok(collected);
    }

    method ReplayQuarantined(ctx: Context, accountId: string, batchId: string, admitted: bool, syncOk: bool)
      returns (r: Result<(), Error>)
      requires Valid()
      modifies this
      ensures Valid() && closed == old(closed)
      ensures var tx := ReplayTx(old(View()), ReceiptKey(accountId, batchId), admitted);
        Settles(Blocked(ctx, closed), tx, syncOk, old(Now()), Now(), r)
    {
      hide Consistent;
      if Blocked(ctx, closed).Some? { return Err(Blocked(ctx, closed).value); }
      var key := ReceiptKey(accountId, batchId);
      ReplayKeepsConsistency(View(), key, admitted);
      var saved := View();
      r := ReplayInTransaction(key, admitted);
      if r.Err? { Rollback(saved); return; }
      if !syncOk { return Err(SyncFailed); }
      durable := View();
    }

    method ReplayAllInTransaction(admits: nat -> bool) returns (r: Result<nat, Error>)
      requires DistinctSequences(quarantine)
      modifies this`counter, this`batches, this`fifo, this`receipts, this`quarantine
      ensures Reports(ReplayAllTx(old(View()), admits), r)
      ensures r.Ok? ==> View() == ReplayAllTx(old(View()), admits).state
    {
      ghost var saved := View();
      var entries := QuarantineBySequence();
      var replayed := 0;
      while replayed < |entries|
        invariant replayed <= |entries|
        invariant ReplayEach(View(), entries[replayed..], admits, replayed) == ReplayAllTx(saved, admits)
      {
        assert entries[replayed..][1..] == entries[replayed + 1..];
        var step := ReplayInTransaction(entries[replayed], admits(replayed));
        if step.Err? { return Err(step.error); }
        replayed := replayed + 1;
      }
      return Ok(replayed);
    }

    /** All quarantined payloads or none: one refusal by the guard undoes every earlier step. */
    method ReplayAllQuarantined(ctx: Context, admits: nat -> bool, syncOk: bool) returns (r: Result<nat, Error>)
      requires Valid()
      modifies this
      ensures Valid() && closed == old(closed)
      ensures Settles(Blocked(ctx, closed), ReplayAllTx(old(View()), admits), syncOk, old(Now()), Now(), r)
    {
      hide Consistent, ReplayOutcome, DistinctSequences, InAcceptanceOrder, ReplayAllTx;
      if Blocked(ctx, closed).Some? { return Err(Blocked(ctx, closed).value); }
      ReplayAllKeepsConsistency(View(), admits);
      QuarantineIsDistinct(View());
      var saved := View();
      r := ReplayAllInTransaction(admits);
      if r.Err? { Rollback(saved); return; }
      if !syncOk { return Err(SyncFailed); }
      durable := View();
    }

    method Sync(syncOk: bool) returns (r: Result<(), Error>)
      requires Valid()
      modifies this`durable
      ensures Valid()
      ensures r == if closed then Err(Closed) else if syncOk then Ok(()) else Err(SyncFailed)
      ensures durable == if r.Ok? then View() else old(durable)
    {
      hide Consistent;
      if closed { return Err(Closed); }
      if !syncOk { return Err(SyncFailed); }
      durable := View();
      return Ok(());
    }

    method Close(syncOk: bool) returns (r: Result<(), Error>)
      requires Valid()
      modifies this`durable, this`closed
      ensures Valid() && closed
      ensures r == if old(closed) || syncOk then Ok(()) else Err(SyncFailed)
      ensures durable == if !old(closed) && syncOk then View() else old(durable)
    {
      hide Consistent;
      if closed { return Ok(()); }
      closed := true;
      if !syncOk { return Err(SyncFailed); }
      durable := View();
      return Ok(());
    }
  }

  /**
   `Open`: validates the options, opens the file and creates its buckets, which
   changes nothing in them, and syncs. The three booleans are how the file system
   answers; `image` is what the file holds.
   */
  method Open(path: string, options: StoreOptions, image: State, fileOpened: bool, initialised: bool, syncOk: bool)
    returns (r: Result<BoltStore, Error>)
    requires Consistent(image)
    ensures r.Ok? <==> path != "" && !options.Negative() && fileOpened && initialised && syncOk
    ensures r.Ok? ==> var store := r.value;
      fresh(store) && store.Valid() && !store.closed && store.Now() == Image(image, image) && store.retention == RetentionOf(options)
    ensures r.Err? ==>
      r.error == (if path == "" then PathRequired
                  else if options.Negative() then NegativeOption
                  else if !fileOpened then OpenFailed
                  else if !initialised then InitialiseFailed
                  else SyncFailed)
  {
    hide Consistent;
    if path == "" { return Err(PathRequired); }
    if options.Negative() { return Err(NegativeOption); }
    if !fileOpened { return Err(OpenFailed); }
    if !initialised { return Err(InitialiseFailed); }
    if !syncOk { return Err(SyncFailed); }
    var store := new BoltStore(image, RetentionOf(options));
    return Ok(store);
  }
}
