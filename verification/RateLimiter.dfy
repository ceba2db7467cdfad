/**
 The fixed-window rate limiter with a bounded table (server.go, `windowLimiter`),
 one call at a time and over whole call histories.
 */
module RateLimiter {
  import opened Prelude

  type Key = string

  datatype Entry = Entry(started: Time, count: int)

  datatype Limits = Limits(limit: int, window: int, maximum: int)

  type Table = map<Key, Entry>

  predicate Ended(entry: Entry, now: Time, limits: Limits) {
    now - entry.started >= limits.window
  }

  /** The table once every ended window is gone. */
  function Swept(table: Table, now: Time, limits: Limits): Table {
    map k | k in table && !Ended(table[k], now, limits) :: table[k]
  }

  /** The admission decision and the table after it. */
  function AllowSpec(table: Table, key: Key, now: Time, limits: Limits): (bool, Table) {
    if key in table && !Ended(table[key], now, limits) then
      if table[key].count >= limits.limit then (false, table)
      else (true, table[key := Entry(table[key].started, table[key].count + 1)])
    else
      var room := if |table| >= limits.maximum then Swept(table, now, limits) else table;
      if |room| >= limits.maximum then (false, room)
      else (true, room[key := Entry(now, 1)])
  }

  function CallerKey(tokenId: string, source: string): Key {
    tokenId + [0 as char] + source
  }

  class WindowLimiter {
    const limits: Limits
    var entries: Table

    constructor (limits: Limits)
      ensures this.limits == limits && entries == map[]
    {
      this.limits := limits;
      entries := map[];
    }

    method Allow(tokenId: string, source: string, now: Time) returns (allowed: bool)
      modifies this
      ensures (allowed, entries) == AllowSpec(old(entries), CallerKey(tokenId, source), now, limits)
    {
      var key := CallerKey(tokenId, source);
      if key !in entries || Ended(entries[key], now, limits) {
        if |entries| >= limits.maximum {
          ghost var table := entries;
          var rest := entries.Keys;
          while rest != {}
            invariant rest <= table.Keys
            invariant forall k :: k in entries <==> k in table && (k in rest || !Ended(table[k], now, limits))
            invariant forall k :: k in entries ==> entries[k] == table[k]
            decreases |rest|
          {
            var existingKey :| existingKey in rest;
            rest := rest - {existingKey};
            if Ended(entries[existingKey], now, limits) {
              entries := entries - {existingKey};
            }
          }
          assert entries == Swept(table, now, limits);
          if |entries| >= limits.maximum { return false; }
        }
        entries := entries[key := Entry(now, 1)];
        return true;
      }
      var entry := entries[key];
      if entry.count >= limits.limit { return false; }
      entry := entry.(count := entry.count + 1);
      entries := entries[key := entry];
      return true;
    }
  }

  // --- One call ------------------------------------------------------------

  /** What a window can admit: its first call is let in whatever the limit says. */
  function Capacity(limits: Limits): int {
    Max(limits.limit, 1)
  }

  ghost predicate WithinBounds(table: Table, limits: Limits) {
    && |table| <= Max(limits.maximum, 0)
    && forall k :: k in table ==> 1 <= table[k].count <= Capacity(limits)
  }

  lemma SweepShrinks(table: Table, now: Time, limits: Limits)
    ensures |Swept(table, now, limits)| <= |table|
  {
    var kept := Swept(table, now, limits).Keys;
    assert kept <= table.Keys;
    assert |table.Keys - kept| == |table.Keys| - |kept|;
  }

  lemma InsertKeepsBounds(room: Table, key: Key, entry: Entry, limits: Limits)
    requires WithinBounds(room, limits) && 1 <= entry.count <= Capacity(limits)
    requires key in room || |room| < limits.maximum
    ensures WithinBounds(room[key := entry], limits)
  {
    if key in room {
      assert room[key := entry].Keys == room.Keys;
    } else {
      assert room[key := entry].Keys == room.Keys + {key};
    }
  }

  lemma AllowKeepsBounds(table: Table, key: Key, now: Time, limits: Limits)
    requires WithinBounds(table, limits)
    ensures WithinBounds(AllowSpec(table, key, now, limits).1, limits)
  {
    SweepShrinks(table, now, limits);
    if key in table && !Ended(table[key], now, limits) {
      if table[key].count < limits.limit {
        InsertKeepsBounds(table, key, Entry(table[key].started, table[key].count + 1), limits);
      }
    } else {
      var room := if |table| >= limits.maximum then Swept(table, now, limits) else table;
      if |room| < limits.maximum {
        InsertKeepsBounds(room, key, Entry(now, 1), limits);
      }
    }
  }

  /** A caller whose own window has ended is let in, however full the table is. */
  lemma EndedWindowIsNeverRefused(table: Table, key: Key, now: Time, limits: Limits)
    requires WithinBounds(table, limits)
    requires key in table && Ended(table[key], now, limits)
    ensures AllowSpec(table, key, now, limits).0
  {
    if |table| >= limits.maximum {
      var kept := Swept(table, now, limits).Keys;
      assert kept <= table.Keys - {key};
      assert |table.Keys - kept| == |table.Keys| - |kept|;
      assert key in table.Keys - kept;
    }
  }

  // --- Call histories ------------------------------------------------------

  datatype Call = Call(key: Key, now: Time)

  /** The table after a history of calls. */
  function TableAfter(calls: seq<Call>, limits: Limits): Table
    decreases |calls|
  {
    if calls == [] then map[]
    else
      var last := calls[|calls| - 1];
      AllowSpec(TableAfter(calls[..|calls| - 1], limits), last.key, last.now, limits).1
  }

  /** Whether the last call of a history was admitted. */
  function LastAllowed(calls: seq<Call>, limits: Limits): bool
    requires calls != []
  {
    var last := calls[|calls| - 1];
    AllowSpec(TableAfter(calls[..|calls| - 1], limits), last.key, last.now, limits).0
  }

  /** Admissions of `key` at times from `low` up to but not including `high`. */
  function Admitted(calls: seq<Call>, key: Key, low: Time, high: Time, limits: Limits): nat
    decreases |calls|
  {
    if calls == [] then 0
    else
      var last := calls[|calls| - 1];
      Admitted(calls[..|calls| - 1], key, low, high, limits)
      + if last.key == key && low <= last.now < high && LastAllowed(calls, limits) then 1 else 0
  }

  ghost predicate NonDecreasing(calls: seq<Call>) {
    forall i, j :: 0 <= i < j < |calls| ==> calls[i].now <= calls[j].now
  }

  lemma {:induction false} HistoryKeepsBounds(calls: seq<Call>, limits: Limits)
    ensures WithinBounds(TableAfter(calls, limits), limits)
    decreases |calls|
  {
    if calls != [] {
      var last := calls[|calls| - 1];
      HistoryKeepsBounds(calls[..|calls| - 1], limits);
      AllowKeepsBounds(TableAfter(calls[..|calls| - 1], limits), last.key, last.now, limits);
    }
  }

  /** The latest window of `key`, remembered even after the table dropped it. */
  function LatestWindow(calls: seq<Call>, key: Key, limits: Limits): Option<Entry>
    decreases |calls|
  {
    if calls == [] then None
    else
      var last := calls[|calls| - 1];
      var before := LatestWindow(calls[..|calls| - 1], key, limits);
      if last.key == key && LastAllowed(calls, limits) then Some(TableAfter(calls, limits)[key]) else before
  }

  /** The table either still holds the latest window of a key, or that window has ended. */
  ghost predicate Tracks(calls: seq<Call>, key: Key, limits: Limits) {
    var table, latest := TableAfter(calls, limits), LatestWindow(calls, key, limits);
    && (key in table ==> latest == Some(table[key]))
    && (latest.Some? && key !in table ==> calls != [] && Ended(latest.value, calls[|calls| - 1].now, limits))
    && (latest.Some? ==> calls != [] && latest.value.started <= calls[|calls| - 1].now)
  }

  lemma {:induction false} HistoryTracks(calls: seq<Call>, key: Key, limits: Limits)
    requires NonDecreasing(calls)
    ensures LatestWindow(calls, key, limits).Some? ==> calls != []
    ensures Tracks(calls, key, limits)
    decreases |calls|
  {
    if calls != [] {
      var earlier := calls[..|calls| - 1];
      HistoryTracks(earlier, key, limits);
      if earlier != [] {
        assert earlier[|earlier| - 1].now <= calls[|calls| - 1].now;
      }
    }
  }

  /** How the admissions of one key are spread around its latest window. */
  ghost predicate Spread(calls: seq<Call>, key: Key, limits: Limits) {
    match LatestWindow(calls, key, limits)
    case None => forall low, high :: Admitted(calls, key, low, high, limits) == 0
    case Some(latest) =>
      && 1 <= latest.count <= Capacity(limits)
      // the window itself: all its admissions lie from its start on, and it counts them
      && (forall low, high :: low >= latest.started ==> Admitted(calls, key, low, high, limits) <= latest.count)
      // none lies past its end
      && (forall low, high :: low >= latest.started + limits.window ==> Admitted(calls, key, low, high, limits) == 0)
      // within one window length before it, at most one earlier window admitted anything
      && (forall low, high :: low > latest.started - limits.window && high <= latest.started ==>
            Admitted(calls, key, low, high, limits) <= Capacity(limits))
  }

  /** One more call changes the count of a span by at most itself. */
  lemma AdmittedStep(calls: seq<Call>, key: Key, low: Time, high: Time, limits: Limits)
    requires calls != []
    ensures var earlier, last := calls[..|calls| - 1], calls[|calls| - 1];
      Admitted(calls, key, low, high, limits) == Admitted(earlier, key, low, high, limits)
        + if last.key == key && LastAllowed(calls, limits) && low <= last.now < high then 1 else 0
  {
  }

  lemma SpreadIdle(calls: seq<Call>, key: Key, limits: Limits)
    requires calls != [] && !(calls[|calls| - 1].key == key && LastAllowed(calls, limits))
    requires Spread(calls[..|calls| - 1], key, limits)
    ensures Spread(calls, key, limits)
  {
    forall low, high
      ensures Admitted(calls, key, low, high, limits) == Admitted(calls[..|calls| - 1], key, low, high, limits)
    {
      AdmittedStep(calls, key, low, high, limits);
    }
  }

  lemma SpreadContinues(calls: seq<Call>, key: Key, limits: Limits, latest: Entry)
    requires calls != [] && calls[|calls| - 1].key == key && LastAllowed(calls, limits)
    requires Spread(calls[..|calls| - 1], key, limits)
    requires LatestWindow(calls[..|calls| - 1], key, limits) == Some(latest)
    requires LatestWindow(calls, key, limits) == Some(Entry(latest.started, latest.count + 1))
    requires latest.started <= calls[|calls| - 1].now < latest.started + limits.window
    requires latest.count + 1 <= Capacity(limits)
    ensures Spread(calls, key, limits)
  {
    forall low, high
      ensures Admitted(calls, key, low, high, limits) == Admitted(calls[..|calls| - 1], key, low, high, limits)
        + if low <= calls[|calls| - 1].now < high then 1 else 0
    {
      AdmittedStep(calls, key, low, high, limits);
    }
  }

  lemma SpreadStartsAfresh(calls: seq<Call>, key: Key, limits: Limits)
    requires limits.window > 0
    requires calls != [] && calls[|calls| - 1].key == key && LastAllowed(calls, limits)
    requires Spread(calls[..|calls| - 1], key, limits)
    requires var latest := LatestWindow(calls[..|calls| - 1], key, limits);
      latest.Some? ==> latest.value.started + limits.window <= calls[|calls| - 1].now
    requires LatestWindow(calls, key, limits) == Some(Entry(calls[|calls| - 1].now, 1))
    ensures Spread(calls, key, limits)
  {
    forall low, high
      ensures Admitted(calls, key, low, high, limits) == Admitted(calls[..|calls| - 1], key, low, high, limits)
        + if low <= calls[|calls| - 1].now < high then 1 else 0
    {
      AdmittedStep(calls, key, low, high, limits);
    }
  }

  lemma {:induction false} HistorySpreads(calls: seq<Call>, key: Key, limits: Limits)
    requires NonDecreasing(calls) && limits.window > 0
    ensures Spread(calls, key, limits)
    decreases |calls|
  {
    if calls != [] {
      var earlier, last := calls[..|calls| - 1], calls[|calls| - 1];
      HistorySpreads(earlier, key, limits);
      HistoryTracks(earlier, key, limits);
      HistoryKeepsBounds(earlier, limits);
      hide Spread;
      if earlier != [] {
        assert earlier[|earlier| - 1].now <= last.now;
      }
      if last.key == key && LastAllowed(calls, limits) {
        var table := TableAfter(earlier, limits);
        if key in table && !Ended(table[key], last.now, limits) {
          SpreadContinues(calls, key, limits, table[key]);
        } else {
          SpreadStartsAfresh(calls, key, limits);
        }
      } else {
        SpreadIdle(calls, key, limits);
      }
    }
  }

  lemma {:induction false} AdmittedSplits(calls: seq<Call>, key: Key, low: Time, middle: Time, high: Time, limits: Limits)
    requires low <= middle <= high
    ensures Admitted(calls, key, low, high, limits) ==
      Admitted(calls, key, low, middle, limits) + Admitted(calls, key, middle, high, limits)
    decreases |calls|
  {
    if calls != [] {
      AdmittedSplits(calls[..|calls| - 1], key, low, middle, high, limits);
    }
  }

  /** In any span of one window length a caller gets at most two windows' worth of admissions. */
  lemma {:induction false} AtMostTwoWindowsWorth(calls: seq<Call>, key: Key, low: Time, high: Time, limits: Limits)
    requires NonDecreasing(calls)
    requires high - low <= limits.window
    ensures Admitted(calls, key, low, high, limits) <= 2 * Capacity(limits)
    decreases |calls|
  {
    if calls != [] {
      var earlier, last := calls[..|calls| - 1], calls[|calls| - 1];
      AtMostTwoWindowsWorth(earlier, key, low, high, limits);
      if last.key == key && low <= last.now < high && LastAllowed(calls, limits) {
        HistorySpreads(calls, key, limits);
        HistoryTracks(calls, key, limits);
        var latest := LatestWindow(calls, key, limits).value;
        if low < latest.started {
          AdmittedSplits(calls, key, low, latest.started, high, limits);
          assert Admitted(calls, key, low, latest.started, limits) <= Capacity(limits);
        }
        assert Admitted(calls, key, Max(low, latest.started), high, limits) <= latest.count;
      }
    }
  }

  // --- A limiter that never forgets ----------------------------------------

  /** A window covers the times from its start up to, but not including, one window length later. */
  predicate Covers(entry: Entry, now: Time, limits: Limits) {
    now < entry.started + limits.window
  }

  /** The callers whose latest window still covers `now`. */
  function Active(windows: Table, now: Time, limits: Limits): set<Key> {
    set k | k in windows && Covers(windows[k], now, limits)
  }

  /**
   Who is let in, told from the latest window of every caller ever let in: within
   its window up to the limit, and otherwise while fewer callers than the maximum
   have a window of their own.
   */
  predicate Admits(windows: Table, key: Key, now: Time, limits: Limits) {
    if key in windows && Covers(windows[key], now, limits) then windows[key].count < limits.limit
    else |Active(windows, now, limits)| < limits.maximum
  }

  /** A caller let in counts in its window, or starts one. */
  function WindowsNext(windows: Table, key: Key, now: Time, limits: Limits): Table {
    if !Admits(windows, key, now, limits) then windows
    else if key in windows && Covers(windows[key], now, limits) then
      windows[key := Entry(windows[key].started, windows[key].count + 1)]
    else windows[key := Entry(now, 1)]
  }

  /** The latest window of every caller let in so far; none is ever dropped. */
  function Windows(calls: seq<Call>, limits: Limits): Table
    decreases |calls|
  {
    if calls == [] then map[]
    else
      var Call(key, now) := calls[|calls| - 1];
      WindowsNext(Windows(calls[..|calls| - 1], limits), key, now, limits)
  }

  /** The bounded table agrees with all windows that cover `now` or a later time. */
  ghost predicate Agrees(table: Table, windows: Table, now: Time, limits: Limits) {
    && (forall k :: k in table ==> k in windows && windows[k] == table[k])
    && (forall k :: k in windows && k !in table ==> !Covers(windows[k], now, limits))
  }

  lemma ActiveAreSwept(table: Table, windows: Table, now: Time, limits: Limits)
    requires Agrees(table, windows, now, limits)
    ensures Swept(table, now, limits).Keys == Active(windows, now, limits)
  {
  }

  lemma AgreeingDecideAlike(table: Table, windows: Table, key: Key, now: Time, limits: Limits)
    requires Agrees(table, windows, now, limits)
    ensures AllowSpec(table, key, now, limits).0 == Admits(windows, key, now, limits)
  {
    ActiveAreSwept(table, windows, now, limits);
    SweepShrinks(table, now, limits);
    assert |Swept(table, now, limits)| == |Active(windows, now, limits)|;
    hide Swept, Active;
  }

  lemma AgreementIsKept(table: Table, windows: Table, key: Key, now: Time, limits: Limits)
    requires Agrees(table, windows, now, limits)
    ensures Agrees(AllowSpec(table, key, now, limits).1, WindowsNext(windows, key, now, limits), now, limits)
  {
    AgreeingDecideAlike(table, windows, key, now, limits);
    hide Admits;
  }

  /**
   Sweeping ended windows, and only when the table is full, changes no decision:
   over every history with a clock that does not run back, a call is let in exactly
   if the limiter that never forgets a window would let it in.
   */
  lemma {:induction false} SweepingChangesNoDecision(calls: seq<Call>, limits: Limits)
    requires NonDecreasing(calls)
    ensures calls != [] ==>
      var Call(key, now) := calls[|calls| - 1];
      && (LastAllowed(calls, limits) <==> Admits(Windows(calls[..|calls| - 1], limits), key, now, limits))
      && Agrees(TableAfter(calls, limits), Windows(calls, limits), now, limits)
    decreases |calls|
  {
    if calls != [] {
      var earlier, last := calls[..|calls| - 1], calls[|calls| - 1];
      SweepingChangesNoDecision(earlier, limits);
      var table, windows := TableAfter(earlier, limits), Windows(earlier, limits);
      assert earlier != [] ==> earlier[|earlier| - 1].now <= last.now;
      assert Agrees(table, windows, last.now, limits);
      AgreeingDecideAlike(table, windows, last.key, last.now, limits);
      AgreementIsKept(table, windows, last.key, last.now, limits);
      hide Admits, Agrees, AllowSpec, WindowsNext;
    }
  }

  /** How the admissions of one caller lie around its latest window. */
  ghost predicate Counted(calls: seq<Call>, key: Key, low: Time, high: Time, limits: Limits) {
    var windows := Windows(calls, limits);
    if key in windows then
      && calls != [] && windows[key].started <= calls[|calls| - 1].now
      && Admitted(calls, key, windows[key].started, high, limits) == windows[key].count
      && (low >= windows[key].started + limits.window ==> Admitted(calls, key, low, high, limits) == 0)
    else Admitted(calls, key, low, high, limits) == 0
  }

  /**
   The count of a window is the number of calls let in since it started, none of
   them past its end; a caller without a window was never let in.
   */
  lemma {:induction false} WindowsCountAdmissions(calls: seq<Call>, key: Key, low: Time, high: Time, limits: Limits)
    requires NonDecreasing(calls) && limits.window > 0
    requires calls != [] ==> calls[|calls| - 1].now < high
    ensures Counted(calls, key, low, high, limits)
    decreases |calls|
  {
    if calls != [] {
      var earlier, last := calls[..|calls| - 1], calls[|calls| - 1];
      assert earlier != [] ==> earlier[|earlier| - 1].now <= last.now;
      WindowsCountAdmissions(earlier, key, low, high, limits);
      WindowsCountAdmissions(earlier, key, last.now, high, limits);
      CountedStep(calls, key, low, high, limits);
    }
  }

  lemma CountedStep(calls: seq<Call>, key: Key, low: Time, high: Time, limits: Limits)
    requires calls != [] && NonDecreasing(calls) && limits.window > 0 && calls[|calls| - 1].now < high
    requires |calls| > 1 ==> calls[|calls| - 2].now <= calls[|calls| - 1].now
    requires Counted(calls[..|calls| - 1], key, low, high, limits)
    requires Counted(calls[..|calls| - 1], key, calls[|calls| - 1].now, high, limits)
    ensures Counted(calls, key, low, high, limits)
  {
    var earlier := calls[..|calls| - 1];
    SweepingChangesNoDecision(calls, limits);
    hide Admits, LastAllowed, Agrees, NonDecreasing;
    var windows := Windows(calls, limits);
    AdmittedStep(calls, key, low, high, limits);
    if key in windows { AdmittedStep(calls, key, windows[key].started, high, limits); }
    hide Admitted;
  }

  /**
   A call within its caller's window is let in exactly if fewer calls than the
   limit were let in since the window started; any other call exactly if fewer
   callers than the maximum have a window covering that time.
   */
  lemma AdmittedIff(calls: seq<Call>, call: Call, limits: Limits)
    requires NonDecreasing(calls + [call]) && limits.window > 0
    ensures var windows := Windows(calls, limits);
      LastAllowed(calls + [call], limits) <==>
        if call.key in windows && Covers(windows[call.key], call.now, limits)
        then Admitted(calls, call.key, windows[call.key].started, call.now + 1, limits) < limits.limit
        else |Active(windows, call.now, limits)| < limits.maximum
  {
    var all := calls + [call];
    assert all[..|all| - 1] == calls;
    assert forall i :: 0 <= i < |calls| ==> all[i] == calls[i];
    assert calls != [] ==> all[|calls| - 1].now <= all[|calls|].now;
    SweepingChangesNoDecision(all, limits);
    WindowsCountAdmissions(calls, call.key, call.now, call.now + 1, limits);
    hide LastAllowed, Agrees, NonDecreasing, Active, Windows;
  }

  /** Two callers share a window exactly if token and source agree, for tokens without a NUL. */
  lemma CallersAreDistinct(token: string, source: string, otherToken: string, otherSource: string)
    requires (0 as char) !in token && (0 as char) !in otherToken
    ensures CallerKey(token, source) == CallerKey(otherToken, otherSource) <==> token == otherToken && source == otherSource
  {
    var a, b := CallerKey(token, source), CallerKey(otherToken, otherSource);
    assert a[|token|] == 0 as char && b[|otherToken|] == 0 as char;
    assert forall i :: 0 <= i < |token| ==> a[i] == token[i];
    assert forall i :: 0 <= i < |otherToken| ==> b[i] == otherToken[i];
    if a == b {
      assert token == a[..|token|] && otherToken == b[..|otherToken|];
      assert source == a[|token| + 1..] && otherSource == b[|otherToken| + 1..];
    }
  }
}
