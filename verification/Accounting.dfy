/**
 Moving a logical call's token and cost accounting onto its latest physical
 attempt (canonicalize.go, `projectLogicalAccounting`), on spans updated in place.
 */
module Accounting {
  import opened Prelude
  import opened Keys
  import opened Attributes
  import opened Text
  import opened Canonical

  type SpanId = seq<byte>

  datatype Span = Span(
    name: string, spanId: SpanId, parentSpanId: SpanId, endTime: nat, attributes: AttributeList,
    events: seq<Option<AttributeList>>, links: seq<Option<AttributeList>>)

  type Spans = seq<Option<Span>>

  const LOGICAL_CALL := "hermes.logical_llm_call"

  /** The span describes a logical call, identified by its span id. */
  predicate IsLogical(span: Option<Span>, id: SpanId) {
    span.Some? && span.value.name == LOGICAL_CALL && id != [] && span.value.spanId == id
  }

  predicate IsLlm(span: Option<Span>) {
    span.Some? && StringValue(span.value.attributes, SCOPE_TYPE) == Some("llm")
  }

  /** The last of the spans claiming to be the logical call `id` is the one whose accounting counts. */
  ghost predicate LogicalFor(spans: Spans, id: SpanId, i: nat) {
    && i < |spans| && IsLogical(spans[i], id)
    && forall j :: i < j < |spans| ==> !IsLogical(spans[j], id)
  }

  ghost predicate HasLogical(spans: Spans, id: SpanId) {
    exists i :: 0 <= i < |spans| && IsLogical(spans[i], id)
  }

  predicate ChildOf(span: Option<Span>, id: SpanId) {
    IsLlm(span) && id != [] && span.value.parentSpanId == id
  }

  /** A physical attempt at the logical call `id`. */
  ghost predicate AttemptOf(spans: Spans, id: SpanId, i: nat) {
    i < |spans| && ChildOf(spans[i], id) && HasLogical(spans, id)
  }

  /** The last attempt among those that end last. */
  ghost predicate LatestFor(spans: Spans, id: SpanId, i: nat) {
    && AttemptOf(spans, id, i)
    && forall j: nat :: AttemptOf(spans, id, j) ==>
         spans[j].value.endTime < spans[i].value.endTime || (spans[j].value.endTime == spans[i].value.endTime && j <= i)
  }

  /** `appendRelayAttributes`: the attributes at or below a dotted prefix. */
  function Below(source: AttributeList, prefix: string): AttributeList {
    if source == [] then []
    else
      var last := source[|source| - 1];
      Below(source[..|source| - 1], prefix)
      + (if last.Some? && last.value.value.Some? && (last.value.key == prefix || HasPrefix(last.value.key, prefix + "."))
         then [last] else [])
  }

  function MissingUsage(r: Renderer, target: AttributeList, source: AttributeList): AttributeList {
    if RelayPayload(r, target, USAGE).Some? then [] else Below(source, USAGE)
  }

  function MissingCost(target: AttributeList, source: AttributeList): AttributeList {
    if AttributeValue(target, COST).Some? then [] else Below(source, COST)
  }

  /** What an attempt gains from the accounting of its logical call: only what it does not report itself. */
  function Gain(r: Renderer, target: AttributeList, source: AttributeList): AttributeList {
    var withUsage := target + MissingUsage(r, target, source);
    withUsage + MissingCost(withUsage, source)
  }

  // --- The loops -----------------------------------------------------------

  ghost predicate LogicalMap(spans: Spans, n: nat, logical: map<SpanId, nat>)
    requires n <= |spans|
  {
    && (forall id :: id in logical ==> LogicalFor(spans[..n], id, logical[id]))
    && (forall id, i :: 0 <= i < n && IsLogical(spans[i], id) ==> id in logical)
  }

  ghost predicate LatestSoFar(spans: Spans, n: nat, id: SpanId, i: nat)
    requires n <= |spans|
  {
    && i < n && AttemptOf(spans, id, i)
    && forall j: nat :: j < n && AttemptOf(spans, id, j) ==>
         spans[j].value.endTime < spans[i].value.endTime || (spans[j].value.endTime == spans[i].value.endTime && j <= i)
  }

  ghost predicate LatestMap(spans: Spans, n: nat, latest: map<SpanId, nat>)
    requires n <= |spans|
  {
    && (forall id :: id in latest ==> LatestSoFar(spans, n, id, latest[id]))
    && (forall id, i: nat :: i < n && AttemptOf(spans, id, i) ==> id in latest)
  }

  method FindLogical(spans: array<Option<Span>>) returns (logical: map<SpanId, nat>)
    ensures LogicalMap(spans[..], spans.Length, logical)
  {
    logical := map[];
    ghost var s := spans[..];
    for n := 0 to spans.Length
      invariant LogicalMap(s, n, logical)
    {
      var span := spans[n];
      LogicalStep(s, n, logical);
      if span.Some? && span.value.name == LOGICAL_CALL && span.value.spanId != [] {
        logical := logical[span.value.spanId := n];
      }
    }
  }

  lemma LogicalStep(s: Spans, n: nat, logical: map<SpanId, nat>)
    requires n < |s| && LogicalMap(s, n, logical)
    ensures LogicalMap(s, n + 1,
      if s[n].Some? && s[n].value.name == LOGICAL_CALL && s[n].value.spanId != [] then logical[s[n].value.spanId := n] else logical)
  {
    assert s[..n + 1][..n] == s[..n];
    hide StringValue;
  }

  method FindLatest(spans: array<Option<Span>>, logical: map<SpanId, nat>) returns (latest: map<SpanId, nat>)
    requires LogicalMap(spans[..], spans.Length, logical)
    ensures LatestMap(spans[..], spans.Length, latest)
  {
    latest := map[];
    ghost var s := spans[..];
    for n := 0 to spans.Length
      invariant LatestMap(s, n, latest)
    {
      var span := spans[n];
      AttemptAt(s, n, logical);
      LatestIndices(s, n, latest);
      hide AttemptOf, LatestMap, LogicalMap, StringValue;
      if span.None? || span.value.parentSpanId == [] || span.value.parentSpanId !in logical || !IsLlm(span) {
        LatestKept(s, n, latest);
        continue;
      }
      var parent := span.value.parentSpanId;
      if parent !in latest || span.value.endTime >= spans[latest[parent]].value.endTime {
        LatestMoved(s, n, latest, parent);
        latest := latest[parent := n];
      } else {
        LatestKept(s, n, latest);
      }
    }
  }

  lemma LatestIndices(s: Spans, n: nat, latest: map<SpanId, nat>)
    requires n <= |s| && LatestMap(s, n, latest)
    ensures forall id :: id in latest ==> latest[id] < n && s[latest[id]].Some?
  {
    hide StringValue, HasLogical;
  }

  /** The loop's tests recognise exactly the attempts. */
  lemma AttemptAt(s: Spans, n: nat, logical: map<SpanId, nat>)
    requires n < |s| && LogicalMap(s, |s|, logical)
    ensures forall id :: AttemptOf(s, id, n) <==>
      s[n].Some? && s[n].value.parentSpanId == id && id != [] && id in logical && IsLlm(s[n])
  {
    assert s[..|s|] == s;
    forall id ensures HasLogical(s, id) <==> id in logical {
      if id in logical { assert IsLogical(s[logical[id]], id); }
    }
    hide StringValue;
  }

  /** A span that is no attempt, or ends before the latest one so far, changes nothing. */
  lemma LatestKept(s: Spans, n: nat, latest: map<SpanId, nat>)
    requires n < |s| && LatestMap(s, n, latest)
    requires forall id :: AttemptOf(s, id, n) ==> id in latest && s[n].value.endTime < s[latest[id]].value.endTime
    ensures LatestMap(s, n + 1, latest)
  {
    hide StringValue, HasLogical;
  }

  /** Any other attempt is the latest by now, ties included. */
  lemma LatestMoved(s: Spans, n: nat, latest: map<SpanId, nat>, id: SpanId)
    requires n < |s| && LatestMap(s, n, latest) && AttemptOf(s, id, n)
    requires id in latest ==> s[n].value.endTime >= s[latest[id]].value.endTime
    ensures LatestMap(s, n + 1, latest[id := n])
  {
    hide StringValue, HasLogical;
    assert forall other :: AttemptOf(s, other, n) ==> other == id;
  }

  // --- Applying the gains --------------------------------------------------

  ghost predicate IndicesFit(spans: Spans, logical: map<SpanId, nat>, latest: map<SpanId, nat>) {
    forall id :: id in latest ==>
      && id in logical && logical[id] < |spans| && spans[logical[id]].Some?
      && latest[id] < |spans| && spans[latest[id]].Some?
  }

  /** What the attempt of logical call `id` becomes, given the spans as they are by then. */
  function Gained(r: Renderer, spans: Spans, logical: map<SpanId, nat>, latest: map<SpanId, nat>, id: SpanId): Span
    requires IndicesFit(spans, logical, latest) && id in latest
  {
    var attempt, accounting := spans[latest[id]].value, spans[logical[id]].value;
    attempt.(attributes := Gain(r, attempt.attributes, accounting.attributes))
  }

  ghost function ApplyInOrder(r: Renderer, spans: Spans, logical: map<SpanId, nat>, latest: map<SpanId, nat>, order: seq<SpanId>): (out: Spans)
    requires IndicesFit(spans, logical, latest) && forall i :: 0 <= i < |order| ==> order[i] in latest
    ensures |out| == |spans| && IndicesFit(out, logical, latest)
  {
    if order == [] then spans
    else
      var id := order[|order| - 1];
      var before := ApplyInOrder(r, spans, logical, latest, order[..|order| - 1]);
      before[latest[id] := Some(Gained(r, before, logical, latest, id))]
  }

  lemma ApplyNext(r: Renderer, spans: Spans, logical: map<SpanId, nat>, latest: map<SpanId, nat>, order: seq<SpanId>, id: SpanId)
    requires IndicesFit(spans, logical, latest) && (forall i :: 0 <= i < |order| ==> order[i] in latest) && id in latest
    ensures var before := ApplyInOrder(r, spans, logical, latest, order);
      ApplyInOrder(r, spans, logical, latest, order + [id]) == before[latest[id] := Some(Gained(r, before, logical, latest, id))]
  {
    assert (order + [id])[..|order|] == order;
    hide Gained;
  }

  /** `order` has visited once every key of `latest` that is not in `rest`. */
  ghost predicate Visited(order: seq<SpanId>, latest: map<SpanId, nat>, rest: set<SpanId>) {
    && (forall i :: 0 <= i < |order| ==> order[i] in latest && order[i] !in rest)
    && (forall i, j :: 0 <= i < j < |order| ==> order[i] != order[j])
    && (forall id :: id in latest && id !in rest ==> id in order)
  }

  ghost predicate Visits(order: seq<SpanId>, latest: map<SpanId, nat>) {
    Visited(order, latest, {})
  }

  lemma VisitNext(order: seq<SpanId>, latest: map<SpanId, nat>, rest: set<SpanId>, id: SpanId)
    requires Visited(order, latest, rest) && id in rest && id in latest
    ensures Visited(order + [id], latest, rest - {id})
  {
  }

  /** The pass could end with these spans. */
  ghost predicate Reachable(r: Renderer, s: Spans, logical: map<SpanId, nat>, latest: map<SpanId, nat>, order: seq<SpanId>, out: Spans) {
    && LogicalMap(s, |s|, logical) && LatestMap(s, |s|, latest) && IndicesFit(s, logical, latest) && Visits(order, latest)
    && out == ApplyInOrder(r, s, logical, latest, order)
  }

  lemma NoneVisited(latest: map<SpanId, nat>)
    ensures Visited([], latest, latest.Keys)
  {
  }

  /** `projectLogicalAccounting`; `order` is the order in which the map of attempts happened to be visited. */
  method ProjectLogicalAccounting(r: Renderer, spans: array<Option<Span>>)
    returns (ghost logical: map<SpanId, nat>, ghost latest: map<SpanId, nat>, ghost order: seq<SpanId>)
    modifies spans
    ensures Reachable(r, old(spans[..]), logical, latest, order, spans[..])
  {
    ghost var s := spans[..];
    var logicalSpans := FindLogical(spans);
    var latestAttempt: map<SpanId, nat> := map[];
    if logicalSpans != map[] { latestAttempt := FindLatest(spans, logicalSpans); }
    else { NoLogicalNoAttempts(s, logicalSpans); }
    MapsFit(s, logicalSpans, latestAttempt);
    logical, latest := logicalSpans, latestAttempt;
    order := ApplyGains(r, spans, logicalSpans, latestAttempt);
  }

  method ApplyGains(r: Renderer, spans: array<Option<Span>>, logical: map<SpanId, nat>, latest: map<SpanId, nat>)
    returns (ghost order: seq<SpanId>)
    requires IndicesFit(spans[..], logical, latest)
    modifies spans
    ensures Visits(order, latest)
    ensures spans[..] == ApplyInOrder(r, old(spans[..]), logical, latest, order)
  {
    hide Gain, Visited;
    ghost var s := spans[..];
    order := [];
    var rest := latest.Keys;
    NoneVisited(latest);
    while rest != {}
      invariant rest <= latest.Keys
      invariant Visited(order, latest, rest)
      invariant forall i :: 0 <= i < |order| ==> order[i] in latest
      invariant spans[..] == ApplyInOrder(r, s, logical, latest, order)
      decreases |rest|
    {
      var id :| id in rest;
      VisitNext(order, latest, rest, id);
      ApplyNext(r, s, logical, latest, order, id);
      rest := rest - {id};
      order := order + [id];
      var attempt, accounting := spans[latest[id]].value, spans[logical[id]].value;
      spans[latest[id]] := Some(attempt.(attributes := Gain(r, attempt.attributes, accounting.attributes)));
    }
  }

  lemma NoLogicalNoAttempts(s: Spans, logical: map<SpanId, nat>)
    requires LogicalMap(s, |s|, logical) && logical == map[]
    ensures LatestMap(s, |s|, map[])
  {
    hide ChildOf;
  }

  lemma MapsFit(s: Spans, logical: map<SpanId, nat>, latest: map<SpanId, nat>)
    requires LogicalMap(s, |s|, logical) && LatestMap(s, |s|, latest)
    ensures IndicesFit(s, logical, latest)
  {
    assert s[..|s|] == s;
    hide StringValue;
  }

  // --- What an attempt gains -----------------------------------------------

  /** The part of the source below `prefix`, if it is wanted. */
  function Part(source: AttributeList, prefix: string, wanted: bool): AttributeList {
    if wanted then Below(source, prefix) else []
  }

  predicate Under(key: string, prefix: string) {
    key == prefix || HasPrefix(key, prefix + ".")
  }

  lemma {:induction false} BelowIsFilter(source: AttributeList, prefix: string, a: Option<KeyValue>)
    ensures a in Below(source, prefix) <==> a in source && a.Some? && a.value.value.Some? && Under(a.value.key, prefix)
  {
    if source != [] {
      var front := source[..|source| - 1];
      assert source == front + [source[|source| - 1]];
      BelowIsFilter(front, prefix, a);
    }
  }

  lemma CostIsNotUsage()
    ensures !Under(COST, USAGE)
  {
    assert COST[22] == 'c' && USAGE[22] == 'u';
    if Under(COST, USAGE) {
      UnderKeepsLetter(COST, USAGE, 22);
    }
  }

  lemma UnderKeepsLetter(key: string, prefix: string, i: nat)
    requires Under(key, prefix) && i < |prefix|
    ensures i < |key| && key[i] == prefix[i]
  {
    assert (prefix + ".")[i] == prefix[i];
  }

  /**
   The attempt keeps what it had and gains, behind it, its call's usage exactly
   if it reports none and its call's cost exactly if it reports none.
   */
  lemma GainIsWhatIsMissing(r: Renderer, target: AttributeList, source: AttributeList)
    ensures Gain(r, target, source)
      == target
         + Part(source, USAGE, RelayPayload(r, target, USAGE).None?)
         + Part(source, COST, AttributeValue(target, COST).None?)
  {
    var usage := MissingUsage(r, target, source);
    CostIsNotUsage();
    forall i | 0 <= i < |usage| && usage[i].Some? ensures usage[i].value.key != COST {
      BelowIsFilter(source, USAGE, usage[i]);
      hide Below, RelayPayload;
    }
    ValueBefore(target, usage, COST);
    hide Below, RelayPayload, AttributeValue, Under;
  }

  /** The two groups of attributes are disjoint. */
  lemma UsageOrCost(key: string)
    ensures !(Under(key, USAGE) && Under(key, COST))
  {
    assert COST[22] == 'c' && USAGE[22] == 'u';
    if Under(key, USAGE) {
      UnderKeepsLetter(key, USAGE, 22);
      if Under(key, COST) {
        UnderKeepsLetter(key, COST, 22);
      }
    }
  }

  lemma {:induction false} BelowConcat(a: AttributeList, b: AttributeList, prefix: string)
    ensures Below(a + b, prefix) == Below(a, prefix) + Below(b, prefix)
  {
    if b == [] {
      assert a + b == a;
    } else {
      assert (a + b)[..|a + b| - 1] == a + b[..|b| - 1];
      BelowConcat(a, b[..|b| - 1], prefix);
    }
  }

  lemma {:induction false} BelowAll(source: AttributeList, prefix: string)
    requires forall i :: 0 <= i < |source| ==> source[i].Some? && source[i].value.value.Some? && Under(source[i].value.key, prefix)
    ensures Below(source, prefix) == source
  {
    if source != [] {
      BelowAll(source[..|source| - 1], prefix);
    }
  }

  lemma {:induction false} BelowNone(source: AttributeList, prefix: string)
    requires forall i :: 0 <= i < |source| && source[i].Some? ==> !Under(source[i].value.key, prefix)
    ensures Below(source, prefix) == []
  {
    if source != [] {
      BelowNone(source[..|source| - 1], prefix);
    }
  }

  lemma BelowBelow(source: AttributeList, prefix: string, other: string)
    requires forall key :: !(Under(key, prefix) && Under(key, other))
    ensures Below(Below(source, prefix), prefix) == Below(source, prefix)
    ensures Below(Below(source, other), prefix) == []
  {
    var mine, others := Below(source, prefix), Below(source, other);
    forall i | 0 <= i < |mine|
      ensures mine[i].Some? && mine[i].value.value.Some? && Under(mine[i].value.key, prefix)
    {
      BelowIsFilter(source, prefix, mine[i]);
    }
    BelowAll(mine, prefix);
    forall i | 0 <= i < |others| && others[i].Some? ensures !Under(others[i].value.key, prefix) {
      BelowIsFilter(source, other, others[i]);
    }
    BelowNone(others, prefix);
  }

  lemma BelowThree(a: AttributeList, b: AttributeList, c: AttributeList, prefix: string)
    ensures Below(a + b + c, prefix) == Below(a, prefix) + Below(b, prefix) + Below(c, prefix)
  {
    BelowConcat(a + b, c, prefix);
    BelowConcat(a, b, prefix);
  }

  lemma PartBelow(source: AttributeList, prefix: string, other: string, wanted: bool)
    requires forall key :: !(Under(key, prefix) && Under(key, other))
    ensures Below(Part(source, prefix, wanted), prefix) == Part(source, prefix, wanted)
    ensures Below(Part(source, other, wanted), prefix) == []
  {
    BelowBelow(source, prefix, other);
  }

  lemma BelowUsual(target: AttributeList, first: AttributeList, second: AttributeList, prefix: string)
    ensures Below(first, prefix) == first && Below(second, prefix) == [] ==>
      Below(target + first + second, prefix) == Below(target, prefix) + first
    ensures Below(first, prefix) == [] && Below(second, prefix) == second ==>
      Below(target + first + second, prefix) == Below(target, prefix) + second
  {
    BelowThree(target, first, second, prefix);
    var below := Below(target, prefix);
    assert below + [] == below && below + first + [] == below + first;
    hide Below;
  }

  lemma BelowParts(target: AttributeList, source: AttributeList, first: string, second: string, u: bool, c: bool)
    requires forall key :: !(Under(key, first) && Under(key, second))
    ensures var gained := target + Part(source, first, u) + Part(source, second, c);
      && Below(gained, first) == Below(target, first) + Part(source, first, u)
      && Below(gained, second) == Below(target, second) + Part(source, second, c)
  {
    PartBelow(source, first, second, u);
    PartBelow(source, first, second, c);
    PartBelow(source, second, first, u);
    PartBelow(source, second, first, c);
    var usage, cost := Part(source, first, u), Part(source, second, c);
    hide Part, Below, Under;
    BelowUsual(target, usage, cost, first);
    BelowUsual(target, usage, cost, second);
  }

  /** What an attempt offers to an attempt of its own after gaining. */
  lemma BelowGain(r: Renderer, target: AttributeList, source: AttributeList)
    ensures Below(Gain(r, target, source), USAGE) == Below(target, USAGE) + Part(source, USAGE, RelayPayload(r, target, USAGE).None?)
    ensures Below(Gain(r, target, source), COST) == Below(target, COST) + Part(source, COST, AttributeValue(target, COST).None?)
  {
    GainIsWhatIsMissing(r, target, source);
    forall key ensures !(Under(key, USAGE) && Under(key, COST)) { UsageOrCost(key); }
    hide Under, Gain, Part, Below, RelayPayload, AttributeValue;
    BelowParts(target, source, USAGE, COST, RelayPayload(r, target, USAGE).None?, AttributeValue(target, COST).None?);
  }

  // --- What the whole pass does --------------------------------------------

  function Own(spans: Spans, i: nat): AttributeList
    requires i < |spans| && spans[i].Some?
  {
    spans[i].value.attributes
  }

  /**
   Usage can flow through two calls: the latest attempt of `outer` is itself the
   logical call `inner`, it and its own latest attempt lack usage, and `outer` has some.
   */
  predicate UsageFlows(r: Renderer, s: Spans, logical: map<SpanId, nat>, latest: map<SpanId, nat>, outer: SpanId, inner: SpanId)
    requires IndicesFit(s, logical, latest) && outer in latest && inner in latest
  {
    && outer != inner && latest[outer] == logical[inner]
    && RelayPayload(r, Own(s, latest[inner]), USAGE).None? && RelayPayload(r, Own(s, latest[outer]), USAGE).None?
    && Below(Own(s, logical[outer]), USAGE) != []
  }

  /** The same for cost. */
  predicate CostFlows(s: Spans, logical: map<SpanId, nat>, latest: map<SpanId, nat>, outer: SpanId, inner: SpanId)
    requires IndicesFit(s, logical, latest) && outer in latest && inner in latest
  {
    && outer != inner && latest[outer] == logical[inner]
    && AttributeValue(Own(s, latest[inner]), COST).None? && AttributeValue(Own(s, latest[outer]), COST).None?
    && Below(Own(s, logical[outer]), COST) != []
  }

  ghost predicate NothingFlows(r: Renderer, s: Spans, logical: map<SpanId, nat>, latest: map<SpanId, nat>)
    requires IndicesFit(s, logical, latest)
  {
    forall p, q :: p in latest && q in latest ==> !UsageFlows(r, s, logical, latest, p, q) && !CostFlows(s, logical, latest, p, q)
  }

  /** The same span cannot be two logical calls, nor the attempt of two. */
  ghost predicate OneToOne(spans: Spans, logical: map<SpanId, nat>, latest: map<SpanId, nat>) {
    forall p, q :: p in latest && q in latest && p != q && p in logical && q in logical ==>
      latest[p] != latest[q] && logical[p] != logical[q]
  }

  /** `out` is `spans` after the calls in `order`: each has gained from the spans as they were, and the rest is untouched. */
  ghost predicate Applied(r: Renderer, spans: Spans, logical: map<SpanId, nat>, latest: map<SpanId, nat>, order: seq<SpanId>, out: Spans)
    requires IndicesFit(spans, logical, latest) && forall i :: 0 <= i < |order| ==> order[i] in latest
  {
    && |out| == |spans|
    && (forall id :: id in order ==> out[latest[id]] == Some(Gained(r, spans, logical, latest, id)))
    && (forall i :: 0 <= i < |spans| && (forall id :: id in order ==> latest[id] != i) ==> out[i] == spans[i])
  }

  /** The source of a call not visited yet offers what it offered at the start, if that matters. */
  lemma SourceStays(r: Renderer, s: Spans, logical: map<SpanId, nat>, latest: map<SpanId, nat>, order: seq<SpanId>, id: SpanId, out: Spans)
    requires IndicesFit(s, logical, latest) && NothingFlows(r, s, logical, latest)
    requires (forall i :: 0 <= i < |order| ==> order[i] in latest) && id in latest && id !in order
    requires IndicesFit(out, logical, latest) && Applied(r, s, logical, latest, order, out)
    ensures RelayPayload(r, Own(s, latest[id]), USAGE).None? ==> Below(Own(out, logical[id]), USAGE) == Below(Own(s, logical[id]), USAGE)
    ensures AttributeValue(Own(s, latest[id]), COST).None? ==> Below(Own(out, logical[id]), COST) == Below(Own(s, logical[id]), COST)
  {
    hide RelayPayload, Below, AttributeValue, Gain;
    if p :| p in order && latest[p] == logical[id] {
      assert !UsageFlows(r, s, logical, latest, p, id) && !CostFlows(s, logical, latest, p, id);
      BelowGain(r, Own(s, latest[p]), Own(s, logical[p]));
      assert Own(out, logical[id]) == Gain(r, Own(s, latest[p]), Own(s, logical[p]));
    } else {
      assert out[logical[id]] == s[logical[id]];
    }
  }

  lemma SameGain(r: Renderer, target: AttributeList, a: AttributeList, b: AttributeList)
    requires RelayPayload(r, target, USAGE).None? ==> Below(a, USAGE) == Below(b, USAGE)
    requires AttributeValue(target, COST).None? ==> Below(a, COST) == Below(b, COST)
    ensures Gain(r, target, a) == Gain(r, target, b)
  {
    GainIsWhatIsMissing(r, target, a);
    GainIsWhatIsMissing(r, target, b);
    hide Gain, Below, RelayPayload, AttributeValue;
  }

  lemma GainedAlike(r: Renderer, s: Spans, logical: map<SpanId, nat>, latest: map<SpanId, nat>, order: seq<SpanId>, id: SpanId, out: Spans)
    requires IndicesFit(s, logical, latest) && NothingFlows(r, s, logical, latest)
    requires (forall i :: 0 <= i < |order| ==> order[i] in latest) && id in latest && id !in order
    requires IndicesFit(out, logical, latest) && Applied(r, s, logical, latest, order, out) && out[latest[id]] == s[latest[id]]
    ensures Gained(r, out, logical, latest, id) == Gained(r, s, logical, latest, id)
  {
    SourceStays(r, s, logical, latest, order, id, out);
    hide Gain, NothingFlows, Applied, Below, RelayPayload, AttributeValue;
    SameGain(r, Own(s, latest[id]), Own(out, logical[id]), Own(s, logical[id]));
  }

  lemma AppliedNext(r: Renderer, s: Spans, logical: map<SpanId, nat>, latest: map<SpanId, nat>, order: seq<SpanId>, id: SpanId, out: Spans)
    requires IndicesFit(s, logical, latest) && NothingFlows(r, s, logical, latest) && OneToOne(s, logical, latest)
    requires (forall i :: 0 <= i < |order| ==> order[i] in latest) && id in latest && id !in order
    requires IndicesFit(out, logical, latest) && Applied(r, s, logical, latest, order, out)
    ensures Applied(r, s, logical, latest, order + [id], out[latest[id] := Some(Gained(r, out, logical, latest, id))])
  {
    hide Gained, NothingFlows;
    assert forall other :: other in order ==> latest[other] != latest[id];
    assert out[latest[id]] == s[latest[id]];
    GainedAlike(r, s, logical, latest, order, id, out);
    hide OneToOne;
  }

  lemma {:induction false} AppliedExactly(
      r: Renderer, s: Spans, logical: map<SpanId, nat>, latest: map<SpanId, nat>, order: seq<SpanId>)
    requires IndicesFit(s, logical, latest) && NothingFlows(r, s, logical, latest) && OneToOne(s, logical, latest)
    requires forall i :: 0 <= i < |order| ==> order[i] in latest
    requires forall i, j :: 0 <= i < j < |order| ==> order[i] != order[j]
    ensures Applied(r, s, logical, latest, order, ApplyInOrder(r, s, logical, latest, order))
  {
    hide Gained, NothingFlows, OneToOne;
    if order != [] {
      var front, id := order[..|order| - 1], order[|order| - 1];
      assert order == front + [id] && id !in front;
      AppliedExactly(r, s, logical, latest, front);
      ApplyNext(r, s, logical, latest, front, id);
      hide Applied;
      AppliedNext(r, s, logical, latest, front, id, ApplyInOrder(r, s, logical, latest, front));
    }
  }

  /**
   The accounting is settled: the latest attempt of each logical call has gained
   what it did not report itself, from its own call, and every other span is as it was.
   */
  ghost predicate Settled(r: Renderer, before: Spans, after: Spans) {
    && |after| == |before|
    && (forall id, i: nat, l: nat :: LatestFor(before, id, i) && LogicalFor(before, id, l) ==>
          after[i] == Some(before[i].value.(attributes := Gain(r, before[i].value.attributes, before[l].value.attributes))))
    && (forall i: nat :: i < |before| && (forall id :: !LatestFor(before, id, i)) ==> after[i] == before[i])
  }

  /** If nothing flows through two calls, the pass settles the accounting, whatever its order. */
  lemma AnyOrderSettles(r: Renderer, s: Spans, logical: map<SpanId, nat>, latest: map<SpanId, nat>, order: seq<SpanId>, out: Spans)
    requires Reachable(r, s, logical, latest, order, out) && NothingFlows(r, s, logical, latest)
    ensures Settled(r, s, out)
  {
    MapsAreExact(s, logical, latest);
    AppliedExactly(r, s, logical, latest, order);
    hide LogicalMap, LatestMap, Gain, LogicalFor, LatestFor, ApplyInOrder, OneToOne, NothingFlows;
    forall id, i: nat, l: nat | LatestFor(s, id, i) && LogicalFor(s, id, l)
      ensures out[i] == Some(s[i].value.(attributes := Gain(r, s[i].value.attributes, s[l].value.attributes)))
    {
      assert id in order && i == latest[id] && l == logical[id];
    }
    forall i: nat | i < |s| && forall id :: !LatestFor(s, id, i) ensures out[i] == s[i] {
      forall id | id in order ensures latest[id] != i {
        assert id in latest && !LatestFor(s, id, i);
      }
    }
  }

  lemma MapsAreExact(s: Spans, logical: map<SpanId, nat>, latest: map<SpanId, nat>)
    requires LogicalMap(s, |s|, logical) && LatestMap(s, |s|, latest)
    ensures OneToOne(s, logical, latest)
    ensures forall id, i: nat :: LatestFor(s, id, i) <==> id in latest && latest[id] == i
    ensures forall id, l: nat :: LogicalFor(s, id, l) <==> id in logical && logical[id] == l
  {
    hide StringValue, HasLogical;
    assert s[..|s|] == s;
    forall id, i: nat ensures LatestFor(s, id, i) <==> id in latest && latest[id] == i {
      if id in latest { assert LatestSoFar(s, |s|, id, latest[id]); }
    }
    forall id, l: nat ensures LogicalFor(s, id, l) <==> id in logical && logical[id] == l {
      if id in logical { assert LogicalFor(s, id, logical[id]); }
    }
    forall p, q | p in latest && q in latest && p != q && p in logical && q in logical
      ensures latest[p] != latest[q] && logical[p] != logical[q]
    {
      assert LatestFor(s, p, latest[p]) && LatestFor(s, q, latest[q]);
      assert LogicalFor(s, p, logical[p]) && LogicalFor(s, q, logical[q]);
    }
  }

  /** There is one settled accounting. */
  lemma SettledIsUnique(r: Renderer, s: Spans, a: Spans, b: Spans)
    requires Settled(r, s, a) && Settled(r, s, b)
    ensures a == b
  {
    hide StringValue, Gain, IsLogical, ChildOf;
    forall i: nat | i < |s| ensures a[i] == b[i] {
      if id :| LatestFor(s, id, i) {
        var l := LogicalExists(s, id, |s|);
      }
    }
  }

  lemma {:induction false} LogicalExists(s: Spans, id: SpanId, n: nat) returns (l: nat)
    requires n <= |s| && exists i :: 0 <= i < n && IsLogical(s[i], id)
    requires forall j :: n <= j < |s| ==> !IsLogical(s[j], id)
    ensures LogicalFor(s, id, l)
  {
    hide IsLogical;
    if IsLogical(s[n - 1], id) { l := n - 1; } else { l := LogicalExists(s, id, n - 1); }
  }

  /** A logical call has one latest attempt, so at most one of its attempts gains. */
  lemma LatestIsUnique(s: Spans, id: SpanId, i: nat, j: nat)
    requires LatestFor(s, id, i) && LatestFor(s, id, j)
    ensures i == j
  {
    hide AttemptOf;
  }

  // --- When the order of the visits shows ----------------------------------

  ghost predicate NoLlmLogical(spans: Spans) {
    forall i :: 0 <= i < |spans| && spans[i].Some? && spans[i].value.name == LOGICAL_CALL ==> !IsLlm(spans[i])
  }

  /** Logical calls that are not of scope type llm cannot be chained. */
  lemma NoLlmLogicalNothingFlows(r: Renderer, s: Spans, logical: map<SpanId, nat>, latest: map<SpanId, nat>)
    requires LogicalMap(s, |s|, logical) && LatestMap(s, |s|, latest) && IndicesFit(s, logical, latest) && NoLlmLogical(s)
    ensures NothingFlows(r, s, logical, latest)
  {
    hide StringValue, AttributeValue, RelayPayload, Below;
    assert s[..|s|] == s;
    forall p, q | p in latest && q in latest
      ensures !UsageFlows(r, s, logical, latest, p, q) && !CostFlows(s, logical, latest, p, q)
    {
      assert LatestSoFar(s, |s|, p, latest[p]) && LogicalFor(s, q, logical[q]);
    }
  }

  /** Visiting the outer call first lets the inner attempt gain what its call has just gained. */
  lemma OuterFirst(r: Renderer, s: Spans, calls: map<SpanId, nat>, attempts: map<SpanId, nat>, outer: SpanId, inner: SpanId)
    requires IndicesFit(s, calls, attempts) && outer in attempts && inner in attempts
    requires attempts[outer] == calls[inner] && attempts[inner] != attempts[outer]
    ensures Own(ApplyInOrder(r, s, calls, attempts, [outer, inner]), attempts[inner])
      == Gain(r, Own(s, attempts[inner]), Gain(r, Own(s, calls[inner]), Own(s, calls[outer])))
  {
    hide Gain;
    assert [] + [outer] == [outer] && [outer] + [inner] == [outer, inner];
    ApplyNext(r, s, calls, attempts, [], outer);
    ApplyNext(r, s, calls, attempts, [outer], inner);
    assert ApplyInOrder(r, s, calls, attempts, []) == s;
    hide ApplyInOrder;
  }

  lemma InnerFirst(r: Renderer, s: Spans, calls: map<SpanId, nat>, attempts: map<SpanId, nat>, outer: SpanId, inner: SpanId)
    requires IndicesFit(s, calls, attempts) && outer in attempts && inner in attempts
    requires attempts[inner] != attempts[outer]
    ensures Own(ApplyInOrder(r, s, calls, attempts, [inner, outer]), attempts[inner])
      == Gain(r, Own(s, attempts[inner]), Own(s, calls[inner]))
  {
    hide Gain;
    assert [] + [inner] == [inner] && [inner] + [outer] == [inner, outer];
    ApplyNext(r, s, calls, attempts, [], inner);
    ApplyNext(r, s, calls, attempts, [inner], outer);
    assert ApplyInOrder(r, s, calls, attempts, []) == s;
    hide ApplyInOrder;
  }

  /** Later visits leave an attempt alone once its own call has been visited. */
  lemma {:induction false} VisitedStays(
      r: Renderer, s: Spans, calls: map<SpanId, nat>, attempts: map<SpanId, nat>, front: seq<SpanId>, rest: seq<SpanId>, id: SpanId)
    requires IndicesFit(s, calls, attempts) && OneToOne(s, calls, attempts) && id in attempts && id !in rest
    requires forall i :: 0 <= i < |front| ==> front[i] in attempts
    requires forall i :: 0 <= i < |rest| ==> rest[i] in attempts
    ensures ApplyInOrder(r, s, calls, attempts, front + rest)[attempts[id]] == ApplyInOrder(r, s, calls, attempts, front)[attempts[id]]
    decreases |rest|
  {
    hide Gained;
    if rest == [] {
      assert front + rest == front;
    } else {
      var before, last := rest[..|rest| - 1], rest[|rest| - 1];
      VisitedStays(r, s, calls, attempts, front, before, id);
      assert front + rest == (front + before) + [last];
      assert attempts[last] != attempts[id];
      hide OneToOne, ApplyInOrder;
      VisitElsewhere(r, s, calls, attempts, front + before, last, id);
    }
  }

  lemma VisitElsewhere(
      r: Renderer, s: Spans, calls: map<SpanId, nat>, attempts: map<SpanId, nat>, order: seq<SpanId>, last: SpanId, id: SpanId)
    requires IndicesFit(s, calls, attempts) && id in attempts && last in attempts && attempts[last] != attempts[id]
    requires forall i :: 0 <= i < |order| ==> order[i] in attempts
    ensures ApplyInOrder(r, s, calls, attempts, order + [last])[attempts[id]] == ApplyInOrder(r, s, calls, attempts, order)[attempts[id]]
  {
    hide Gained;
    ApplyNext(r, s, calls, attempts, order, last);
    hide ApplyInOrder;
  }

  lemma GainDiffers(r: Renderer, s: Spans, calls: map<SpanId, nat>, attempts: map<SpanId, nat>, outer: SpanId, inner: SpanId)
    requires IndicesFit(s, calls, attempts) && outer in attempts && inner in attempts
    requires UsageFlows(r, s, calls, attempts, outer, inner) || CostFlows(s, calls, attempts, outer, inner)
    ensures outer != inner && attempts[outer] == calls[inner]
    ensures var a, l, c := Own(s, attempts[inner]), Own(s, calls[inner]), Own(s, calls[outer]);
      Gain(r, a, Gain(r, l, c)) != Gain(r, a, l)
  {
    var a, l, c := Own(s, attempts[inner]), Own(s, calls[inner]), Own(s, calls[outer]);
    BelowGain(r, l, c);
    GainIsWhatIsMissing(r, a, Gain(r, l, c));
    GainIsWhatIsMissing(r, a, l);
    hide Gain, Below, RelayPayload, AttributeValue;
  }

  /** Where something flows, two orders that differ in the visits of the two calls give different spans. */
  lemma FlowShows(r: Renderer, s: Spans, calls: map<SpanId, nat>, attempts: map<SpanId, nat>, outer: SpanId, inner: SpanId, rest: seq<SpanId>)
    requires IndicesFit(s, calls, attempts) && OneToOne(s, calls, attempts) && outer in attempts && inner in attempts
    requires UsageFlows(r, s, calls, attempts, outer, inner) || CostFlows(s, calls, attempts, outer, inner)
    requires inner !in rest && forall i :: 0 <= i < |rest| ==> rest[i] in attempts
    ensures ApplyInOrder(r, s, calls, attempts, [outer, inner] + rest) != ApplyInOrder(r, s, calls, attempts, [inner, outer] + rest)
  {
    hide Gain, ApplyInOrder, UsageFlows, CostFlows;
    GainDiffers(r, s, calls, attempts, outer, inner);
    OuterFirst(r, s, calls, attempts, outer, inner);
    InnerFirst(r, s, calls, attempts, outer, inner);
    VisitedStays(r, s, calls, attempts, [outer, inner], rest, inner);
    VisitedStays(r, s, calls, attempts, [inner, outer], rest, inner);
  }

  lemma {:induction false} SomeOrder(ids: set<SpanId>) returns (order: seq<SpanId>)
    ensures forall id :: id in order <==> id in ids
    ensures forall i, j :: 0 <= i < j < |order| ==> order[i] != order[j]
    decreases |ids|
  {
    order := [];
    if id :| id in ids {
      var rest := SomeOrder(ids - {id});
      order := [id] + rest;
    }
  }

  lemma FirstTwo(attempts: map<SpanId, nat>, p: SpanId, q: SpanId, rest: seq<SpanId>)
    requires p != q && p in attempts && q in attempts
    requires forall id :: id in rest <==> id in attempts.Keys - {p, q}
    requires forall i, j :: 0 <= i < j < |rest| ==> rest[i] != rest[j]
    ensures Visits([p, q] + rest, attempts)
  {
    var order := [p, q] + rest;
    assert order[0] == p && order[1] == q;
    forall id | id in attempts ensures id in order {
      if id != p && id != q { assert id in rest; }
    }
    forall i | 2 <= i < |order| ensures order[i] in rest {
      assert order[i] == rest[i - 2];
    }
  }

  /** The pass gives one result for every order of its visits exactly if nothing flows through two calls. */
  lemma OrderIsIrrelevantIff(r: Renderer, s: Spans, logical: map<SpanId, nat>, latest: map<SpanId, nat>)
    requires LogicalMap(s, |s|, logical) && LatestMap(s, |s|, latest) && IndicesFit(s, logical, latest)
    ensures NothingFlows(r, s, logical, latest) <==>
      forall a, b :: Visits(a, latest) && Visits(b, latest) ==>
        ApplyInOrder(r, s, logical, latest, a) == ApplyInOrder(r, s, logical, latest, b)
  {
    hide ApplyInOrder, LogicalMap, LatestMap, IndicesFit, UsageFlows, CostFlows, Settled;
    if NothingFlows(r, s, logical, latest) {
      forall a, b | Visits(a, latest) && Visits(b, latest)
        ensures ApplyInOrder(r, s, logical, latest, a) == ApplyInOrder(r, s, logical, latest, b)
      {
        var x, y := ApplyInOrder(r, s, logical, latest, a), ApplyInOrder(r, s, logical, latest, b);
        AnyOrderSettles(r, s, logical, latest, a, x);
        AnyOrderSettles(r, s, logical, latest, b, y);
        SettledIsUnique(r, s, x, y);
      }
    } else {
      var p, q :| p in latest && q in latest && (UsageFlows(r, s, logical, latest, p, q) || CostFlows(s, logical, latest, p, q));
      FlowMakesADifference(r, s, logical, latest, p, q);
    }
  }

  lemma FlowMakesADifference(r: Renderer, s: Spans, logical: map<SpanId, nat>, latest: map<SpanId, nat>, p: SpanId, q: SpanId)
    requires LogicalMap(s, |s|, logical) && LatestMap(s, |s|, latest) && IndicesFit(s, logical, latest)
    requires p in latest && q in latest
    requires UsageFlows(r, s, logical, latest, p, q) || CostFlows(s, logical, latest, p, q)
    ensures exists a, b ::
      && Visits(a, latest) && Visits(b, latest)
      && ApplyInOrder(r, s, logical, latest, a) != ApplyInOrder(r, s, logical, latest, b)
  {
    GainDiffers(r, s, logical, latest, p, q);
    MapsAreExact(s, logical, latest);
    hide ApplyInOrder, LogicalMap, LatestMap, UsageFlows, CostFlows, OneToOne, Visits;
    var rest := SomeOrder(latest.Keys - {p, q});
    assert forall i :: 0 <= i < |rest| ==> rest[i] in latest by {
      forall i | 0 <= i < |rest| ensures rest[i] in latest { assert rest[i] in rest; }
    }
    FirstTwo(latest, p, q, rest);
    FirstTwo(latest, q, p, rest);
    FlowShows(r, s, logical, latest, p, q, rest);
  }

  /** A call that is itself an attempt: with an attempt of its own, the visiting order shows in the result. */
  const CHAINED: Spans := [
    Some(Span(LOGICAL_CALL, [1], [], 0, [Attribute(COST, Whole(5))], [], [])),
    Some(Span(LOGICAL_CALL, [2], [1], 0, [Attribute(SCOPE_TYPE, Value.Text("llm"))], [], [])),
    Some(Span("attempt", [3], [2], 0, [Attribute(SCOPE_TYPE, Value.Text("llm"))], [], []))]

  const CHAINED_CALLS: map<SpanId, nat> := map[[1] := 0, [2] := 1]
  const CHAINED_ATTEMPTS: map<SpanId, nat> := map[[1] := 1, [2] := 2]

  lemma ChainedCalls(id: SpanId)
    ensures IsLogical(CHAINED[0], id) <==> id == [1]
    ensures IsLogical(CHAINED[1], id) <==> id == [2]
    ensures !IsLogical(CHAINED[2], id)
  {
    assert |"attempt"| != |LOGICAL_CALL|;
    assert [1 as byte][0] == 1 && [2 as byte][0] == 2;
  }

  lemma ChainedChildren(id: SpanId)
    ensures !ChildOf(CHAINED[0], id)
    ensures ChildOf(CHAINED[1], id) <==> id == [1]
    ensures ChildOf(CHAINED[2], id) <==> id == [2]
  {
    assert IsLlm(CHAINED[1]) && IsLlm(CHAINED[2]);
    hide IsLlm;
  }

  lemma ChainedLogicalMap()
    ensures LogicalMap(CHAINED, 3, CHAINED_CALLS)
    ensures forall id :: HasLogical(CHAINED, id) <==> id in CHAINED_CALLS
  {
    var s := CHAINED;
    assert |s| == 3 && s[..3] == s;
    forall id ensures HasLogical(s, id) <==> id in CHAINED_CALLS {
      ChainedCalls(id);
      if id == [1] { assert IsLogical(s[0], id); }
      if id == [2] { assert IsLogical(s[1], id); }
    }
    forall id ensures id in CHAINED_CALLS ==> LogicalFor(s, id, CHAINED_CALLS[id]) {
      ChainedCalls(id);
    }
    hide IsLogical;
    forall id, i | 0 <= i < 3 && IsLogical(s[i], id) ensures id in CHAINED_CALLS {
      ChainedCalls(id);
    }
  }

  lemma ChainedLatestMap()
    ensures LatestMap(CHAINED, 3, CHAINED_ATTEMPTS)
  {
    ChainedLogicalMap();
    hide ChildOf, HasLogical, LogicalMap;
    forall id, i: nat ensures AttemptOf(CHAINED, id, i) <==> id in CHAINED_ATTEMPTS && i == CHAINED_ATTEMPTS[id] {
      ChainedChildren(id);
    }
  }

  /** Cost flows from the first call through the second, so the order of the visits shows. */
  lemma ChainedCallsDependOnOrder(r: Renderer)
    ensures var calls, attempts := CHAINED_CALLS, CHAINED_ATTEMPTS;
      && LogicalMap(CHAINED, 3, calls) && LatestMap(CHAINED, 3, attempts) && IndicesFit(CHAINED, calls, attempts)
      && !NothingFlows(r, CHAINED, calls, attempts)
  {
    var calls, attempts := CHAINED_CALLS, CHAINED_ATTEMPTS;
    ChainedLogicalMap();
    ChainedLatestMap();
    hide LogicalMap, LatestMap;
    MapsFit(CHAINED, calls, attempts);
    hide IndicesFit;
    ChainedCostFlows();
    assert !NothingFlows(r, CHAINED, calls, attempts) by {
      hide CostFlows, UsageFlows;
    }
  }

  lemma ChainedCostFlows()
    requires IndicesFit(CHAINED, CHAINED_CALLS, CHAINED_ATTEMPTS)
    ensures CostFlows(CHAINED, CHAINED_CALLS, CHAINED_ATTEMPTS, [1], [2])
  {
    var outer, inner: SpanId := [1], [2];
    assert outer[0] != inner[0];
    var scope := SCOPE_TYPE;
    assert |scope| < |COST|;
    var first, second := Own(CHAINED, 1), Own(CHAINED, 2);
    assert first[1..] == [] && second[1..] == [];
    assert Below(Own(CHAINED, 0), COST) != [];
  }
}
