/**
 What becomes of a generation's accounting between the projection from its logical
 call and the exported span (canonicalize.go, `Canonicalize`): the gained attributes
 stand at the end of a list that redaction then cuts, and the usage that is left is
 split into parts.
 */
module Generations {
  import opened Prelude
  import opened Attributes
  import opened Json
  import opened Redaction
  import opened RedactionLimits
  import opened Canonical
  import opened Accounting
  import opened Export
  import TokenUsage

  // --- How far redaction reaches into an extended list ---------------------

  /** How many attributes appended to the list redaction would still reach. */
  function Room(target: AttributeList): nat {
    if ReachedCount(target) == |target| then MAX_ENTRIES - |target| else 0
  }

  ghost predicate AllUsable(list: AttributeList) {
    forall i :: 0 <= i < |list| ==> Usable(list[i])
  }

  lemma {:induction false} ReachedUsable(a: AttributeList, b: AttributeList)
    requires AllUsable(a)
    ensures Reached(a + b) == a + Reached(b)
  {
    if a == [] {
      assert a + b == b;
    } else {
      assert (a + b)[1..] == a[1..] + b;
      ReachedUsable(a[1..], b);
    }
  }

  lemma {:induction false} ReachedStopsEarly(a: AttributeList, b: AttributeList)
    requires !AllUsable(a)
    ensures Reached(a + b) == Reached(a) && |Reached(a)| < |a|
  {
    assert (a + b)[0] == a[0];
    if Usable(a[0]) {
      assert a == [a[0]] + a[1..];
      assert (a + b)[1..] == a[1..] + b;
      ReachedStopsEarly(a[1..], b);
    }
  }

  lemma AllReached(a: AttributeList)
    requires AllUsable(a)
    ensures Reached(a) == a
  {
    ReachedUsable(a, []);
    assert a + [] == a;
  }

  /** Redaction reaches what it reached before, and as much of the appended attributes as there is room for. */
  lemma ReachedExtends(target: AttributeList, gained: AttributeList)
    requires AllUsable(gained)
    ensures var n := Min(Room(target), |gained|);
      Reached(FirstFew(target + gained)) == Reached(FirstFew(target)) + gained[..n]
  {
    var n := Min(Room(target), |gained|);
    if |target| > MAX_ENTRIES {
      assert (target + gained)[..MAX_ENTRIES] == target[..MAX_ENTRIES];
      assert gained[..0] == [];
    } else {
      var more := if |target| + |gained| <= MAX_ENTRIES then gained else gained[..MAX_ENTRIES - |target|];
      assert FirstFew(target + gained) == target + more;
      assert FirstFew(target) == target;
      if AllUsable(target) {
        AllReached(target);
        AllReached(more);
        ReachedUsable(target, more);
      } else {
        ReachedStopsEarly(target, more);
        assert gained[..0] == [];
      }
    }
    hide Reached;
  }

  lemma {:induction false} SanitizeConcat(codec: Codec, a: AttributeList, b: AttributeList, depth: nat)
    requires depth <= MAX_DEPTH && AllUsable(a) && AllUsable(b)
    ensures AllUsable(a + b)
    ensures SanitizeAttributes(codec, a + b, depth) == SanitizeAttributes(codec, a, depth) + SanitizeAttributes(codec, b, depth)
    decreases |b|
  {
    hide IsAudio, IsCredential, SanitizeValue;
    if b == [] {
      assert a + b == a;
    } else {
      assert (a + b)[..|a + b| - 1] == a + b[..|b| - 1];
      SanitizeConcat(codec, a, b[..|b| - 1], depth);
    }
  }

  lemma {:induction false} UnreservedConcat(a: AttributeList, b: AttributeList)
    ensures Unreserved(a + b) == Unreserved(a) + Unreserved(b)
    decreases |b|
  {
    hide Kept;
    if b == [] {
      assert a + b == a;
    } else {
      assert (a + b)[..|a + b| - 1] == a + b[..|b| - 1];
      UnreservedConcat(a, b[..|b| - 1]);
    }
  }

  // --- The gained attributes -----------------------------------------------

  /** The attributes of the relay, none of which is reserved. */
  ghost predicate OfRelay(list: AttributeList) {
    AllUsable(list) && forall i :: 0 <= i < |list| ==> list[i].value.key != "" && list[i].value.key[0] == 'n'
  }

  lemma RelayKeyIsKept(attribute: Option<KeyValue>)
    requires attribute.Some? && attribute.value.key != "" && attribute.value.key[0] == 'n'
    ensures Kept(attribute)
  {
    hide Name;
    forall key: Reserved ensures Name(key) != attribute.value.key { NameIsOwn(key); }
  }

  lemma NameIsOwn(key: Reserved)
    ensures Name(key) != "" && Name(key)[0] != 'n'
  {
    NameHasSignature(key);
    hide Name;
  }

  lemma {:induction false} RelayIsKept(codec: Codec, list: AttributeList)
    requires OfRelay(list)
    ensures Unreserved(SanitizeAttributes(codec, list, 0)) == SanitizeAttributes(codec, list, 0)
  {
    if list != [] {
      var front, last := list[..|list| - 1], list[|list| - 1].value;
      RelayIsKept(codec, front);
      hide IsAudio, IsCredential, SanitizeValue, Kept;
      var clean := SanitizeAttributes(codec, front, 0);
      forall value: Value ensures Kept(Attribute(last.key, value)) { RelayKeyIsKept(Attribute(last.key, value)); }
      forall value: Value ensures Unreserved(clean + [Attribute(last.key, value)]) == Unreserved(clean) + [Attribute(last.key, value)] {
        UnreservedNext(clean, Attribute(last.key, value));
      }
      assert clean + [] == clean;
    }
  }

  lemma UnreservedNext(list: AttributeList, attribute: Option<KeyValue>)
    ensures Unreserved(list + [attribute]) == Unreserved(list) + (if Kept(attribute) then [attribute] else [])
  {
    hide Kept;
    assert (list + [attribute])[..|list|] == list;
  }

  /** What is left of a list to which relay attributes were appended: what fits of them, redacted. */
  lemma CleanExtends(codec: Codec, target: AttributeList, gained: AttributeList)
    requires OfRelay(gained)
    ensures var n := Min(Room(target), |gained|);
      && OfRelay(gained[..n])
      && WithoutCanonical(codec, target + gained) == WithoutCanonical(codec, target) + SanitizeAttributes(codec, gained[..n], 0)
  {
    var n := Min(Room(target), |gained|);
    var reached := Reached(FirstFew(target));
    FrontIsOfRelay(gained, n);
    ReachedExtends(target, gained);
    CleanIsSanitized(codec, target);
    CleanIsSanitized(codec, target + gained);
    hide *;
    SanitizeConcat(codec, reached, gained[..n], 0);
    UnreservedConcat(SanitizeAttributes(codec, reached, 0), SanitizeAttributes(codec, gained[..n], 0));
    RelayIsKept(codec, gained[..n]);
  }

  lemma FrontIsOfRelay(list: AttributeList, n: nat)
    requires OfRelay(list) && n <= |list|
    ensures AllUsable(list) && OfRelay(list[..n]) && AllUsable(list[..n])
  {
  }

  lemma CleanIsSanitized(codec: Codec, list: AttributeList)
    ensures AllUsable(Reached(FirstFew(list)))
    ensures WithoutCanonical(codec, list) == Unreserved(SanitizeAttributes(codec, Reached(FirstFew(list)), 0))
  {
    hide Reached, SanitizeAttributes, Unreserved;
  }

  /** What an attempt gains, behind its own attributes. */
  function Missing(r: Renderer, target: AttributeList, source: AttributeList): AttributeList {
    Part(source, USAGE, RelayPayload(r, target, USAGE).None?) + Part(source, COST, AttributeValue(target, COST).None?)
  }

  lemma GainedIsOfRelay(r: Renderer, target: AttributeList, source: AttributeList)
    ensures OfRelay(Missing(r, target, source))
  {
    var gained := Missing(r, target, source);
    forall i | 0 <= i < |gained| ensures Usable(gained[i]) && gained[i].value.key != "" && gained[i].value.key[0] == 'n' {
      BelowIsFilter(source, USAGE, gained[i]);
      BelowIsFilter(source, COST, gained[i]);
      var prefix := if gained[i] in Below(source, USAGE) then USAGE else COST;
      hide Below, RelayPayload, AttributeValue;
      UnderKeepsLetter(gained[i].value.key, prefix, 0);
    }
  }

  /** The keys of a cut list that survive are all of them, audio aside, exactly if nothing but audio is cut off. */
  lemma CutKeysSurviveIff(codec: Codec, list: AttributeList, n: nat)
    requires AllUsable(list) && n <= |list|
    ensures AllUsable(list[..n])
    ensures KeysOf(SanitizeAttributes(codec, list[..n], 0)) == WithoutAudio(KeysOf(list)) <==> WithoutAudio(KeysOf(list[n..])) == []
  {
    OtherKeysSurvive(codec, list[..n], 0);
    assert list == list[..n] + list[n..];
    KeysConcat(list[..n], list[n..]);
    WithoutAudioConcat(KeysOf(list[..n]), KeysOf(list[n..]));
    hide WithoutAudio, KeysOf, SanitizeAttributes;
  }

  lemma SettledAttempt(r: Renderer, before: Spans, mid: Spans, id: SpanId, i: nat, l: nat)
    requires Settled(r, before, mid) && LatestFor(before, id, i) && LogicalFor(before, id, l)
    ensures var target, source := before[i].value.attributes, before[l].value.attributes;
      && mid[i].Some?
      && mid[i].value.attributes == target + Missing(r, target, source)
  {
    var target, source := before[i].value.attributes, before[l].value.attributes;
    assert mid[i] == Some(before[i].value.(attributes := Gain(r, target, source)));
    GainIsWhatIsMissing(r, target, source);
    hide *;
    MissingBehind(r, target, source);
  }

  lemma MissingBehind(r: Renderer, target: AttributeList, source: AttributeList)
    ensures target + Part(source, USAGE, RelayPayload(r, target, USAGE).None?) + Part(source, COST, AttributeValue(target, COST).None?)
      == target + Missing(r, target, source)
  {
    hide Part, RelayPayload, AttributeValue;
  }

  lemma CleanIsExported(c: Context, span: Span)
    ensures RewriteSpan(c, Some(span)).Some?
    ensures WithoutCanonical(c.codec, span.attributes) <= RewriteSpan(c, Some(span)).value.attributes
  {
    hide WithoutCanonical, Projection, Rendered, Identity, CleanLists;
  }

  /**
   The accounting gained by the latest attempt of a call survives into its exported
   span, at its front, exactly as far as redaction reaches: behind the attempt's own attributes, up
   to the 256th, and not at all if one of them is nil or has no value.
   */
  lemma GainSurvivesAsFarAsReached(c: Context, before: Spans, mid: Spans, id: SpanId, i: nat, l: nat)
    requires Settled(c.r, before, mid) && LatestFor(before, id, i) && LogicalFor(before, id, l)
    ensures var target, gained := before[i].value.attributes, Missing(c.r, before[i].value.attributes, before[l].value.attributes);
      var n := Min(Room(target), |gained|);
      && mid[i].Some? && OfRelay(gained[..n])
      && WithoutCanonical(c.codec, target) + SanitizeAttributes(c.codec, gained[..n], 0) <= RewriteSpan(c, mid[i]).value.attributes
      && WithoutCanonical(c.codec, mid[i].value.attributes)
           == WithoutCanonical(c.codec, target) + SanitizeAttributes(c.codec, gained[..n], 0)
      // all of it survives, audio aside, exactly if nothing but audio lies behind what is reached
      && (KeysOf(SanitizeAttributes(c.codec, gained[..n], 0)) == WithoutAudio(KeysOf(gained)) <==> WithoutAudio(KeysOf(gained[n..])) == [])
  {
    var target, source := before[i].value.attributes, before[l].value.attributes;
    var gained := Missing(c.r, target, source);
    SettledAttempt(c.r, before, mid, id, i, l);
    GainedIsOfRelay(c.r, target, source);
    assert AllUsable(gained);
    CleanIsExported(c, mid[i].value);
    hide *;
    CleanExtends(c.codec, target, gained);
    CutKeysSurviveIff(c.codec, gained, Min(Room(target), |gained|));
  }

  /** There is no room exactly behind 256 attributes, or behind one that is nil or has no value. */
  lemma NoRoomIff(target: AttributeList)
    ensures Room(target) == 0 <==> |target| >= MAX_ENTRIES || !AllUsable(target)
  {
    ReachedAreUsable(target);
    if |target| < MAX_ENTRIES && AllUsable(target) { AllReached(target); }
    hide Reached;
  }

  lemma ReachedAreUsable(target: AttributeList)
    ensures ReachedCount(target) <= MAX_ENTRIES && AllUsable(target[..ReachedCount(target)])
    ensures ReachedCount(target) == |target| ==> AllUsable(target)
  {
    ReachedIsFront(target);
    assert target[..|target|] == target;
  }

  /** Without room an attempt loses all it has gained. */
  lemma NoRoomNoGain(codec: Codec, target: AttributeList, gained: AttributeList)
    requires OfRelay(gained) && (|target| >= MAX_ENTRIES || !AllUsable(target))
    ensures WithoutCanonical(codec, target + gained) == WithoutCanonical(codec, target)
  {
    NoRoomIff(target);
    CleanExtends(codec, target, gained);
    assert gained[..0] == [];
    assert SanitizeAttributes(codec, [], 0) == [];
    hide *;
    assert WithoutCanonical(codec, target) + [] == WithoutCanonical(codec, target);
  }

  const CUT_ATTEMPT: AttributeList := [Attribute(SCOPE_TYPE, Value.Text("llm")), Some(KeyValue("x", None))]
  const CALL_COST: AttributeList := [Attribute(COST, Whole(5))]

  /** An attempt with a valueless attribute gains its call's cost in the projection and exports none. */
  lemma CutAttemptExportsNoCost(codec: Codec)
    ensures AttributeValue(CUT_ATTEMPT, COST).None? && Below(CALL_COST, COST) == CALL_COST
    ensures WithoutCanonical(codec, CUT_ATTEMPT + CALL_COST) == WithoutCanonical(codec, CUT_ATTEMPT)
  {
    CutAttemptLists();
    hide *;
    NoRoomNoGain(codec, CUT_ATTEMPT, CALL_COST);
  }

  lemma CutAttemptLists()
    ensures AttributeValue(CUT_ATTEMPT, COST).None? && Below(CALL_COST, COST) == CALL_COST
    ensures OfRelay(CALL_COST) && !AllUsable(CUT_ATTEMPT)
  {
    assert |SCOPE_TYPE| < |COST| && |"x"| < |COST| && COST[0] == 'n';
    var second := CUT_ATTEMPT[1..];
    assert second[0] == Some(KeyValue("x", None)) && second[1..] == [];
    assert AttributeValue(second, COST).None?;
    assert CUT_ATTEMPT[0].value.key == SCOPE_TYPE && AttributeValue(CUT_ATTEMPT, COST) == AttributeValue(second, COST);
    assert CALL_COST[..0] == [] && Below(CALL_COST[..0], COST) == [];
    assert !Usable(CUT_ATTEMPT[1]);
  }

  // --- The usage that is exported ------------------------------------------

  /** How often a candidate's key occurs in the projection, and with which value. */
  lemma {:induction false} CandidateOccurs(candidates: seq<Candidate>, i: nat)
    requires RanksAscend(candidates) && i < |candidates|
    ensures var key, value := candidates[i].0, candidates[i].1;
      && Occurrences(Present(candidates), key) == (if value.Some? then 1 else 0)
      && (value.Some? ==> (key, value.value) in Present(candidates))
  {
    var head, rest := candidates[0], candidates[1..];
    if head.1.Some? { assert Present(candidates)[1..] == Present(rest); }
    if i == 0 {
      NoneAbove(rest, head.0);
    } else {
      assert candidates[i] == rest[i - 1];
      CandidateOccurs(rest, i - 1);
    }
  }

  /** The usage the relay reported on a span, as decoded. */
  function ReportedUsage(r: Renderer, attributes: AttributeList): Option<Json> {
    match RelayPayload(r, attributes, USAGE)
    case Some(raw) => r.parse(raw)
    case None => None
  }

  lemma UsageCandidate(r: Renderer, name: string, attributes: AttributeList)
    requires name != "hermes.turn" && StringValue(attributes, SCOPE_TYPE) == Some("llm")
    ensures var usage := Canonical.Wrapped(RelayUsage(r, attributes));
      && Occurrences(Projection(r, name, attributes), UsageDetails) == (if usage.Some? then 1 else 0)
      && (usage.Some? ==> (UsageDetails, usage.value) in Projection(r, name, attributes))
  {
    CandidatesAscend(r, name, attributes);
    hide StringValue, RelayPayload, PreferredRelayPayload, RelayUsage, RelayCost, RelayModel, RanksAscend, Occurrences, Present;
    CandidateOccurs(Candidates(r, name, attributes), 4);
  }

  /**
   The usage details a generation exports are those of the split: there are some
   exactly if usage was reported and names a count, and then they are the parts of
   the reported counts with their total, rendered, and occur once.
   */
  lemma ExportedUsageIsTheSplit(c: Context, name: string, attributes: AttributeList)
    requires name != "hermes.turn" && StringValue(WithoutCanonical(c.codec, attributes), SCOPE_TYPE) == Some("llm")
    ensures var list := CanonicalSpan(c.codec, c.r, name, attributes, c.p, c.h, c.batchId);
      var usage := ReportedUsage(c.r, WithoutCanonical(c.codec, attributes));
      if usage.None? || TokenUsage.Breakdown(usage.value).None? then Count(list, Name(UsageDetails)) == 0
      else
        var details := TokenUsage.Breakdown(usage.value).value;
        && OnceWith(list, UsageDetails, c.r.details(TokenUsage.Fields(details)))
        && TokenUsage.ReportsDetails(TokenUsage.CountsOf(usage.value), Some(details))
  {
    var clean := WithoutCanonical(c.codec, attributes);
    var list := CanonicalSpan(c.codec, c.r, name, attributes, c.p, c.h, c.batchId);
    UsageCandidate(c.r, name, clean);
    SpanIdentityIsTrusted(c.codec, c.r, name, attributes, c.p, c.h, c.batchId, UsageDetails);
    CanonicalProjection(c.codec, c.r, name, attributes, c.p, c.h, c.batchId);
    UsageText(c.r, clean);
    hide *;
    UsageIsOwn(c, name, list, RelayUsage(c.r, clean));
  }

  lemma UsageText(r: Renderer, attributes: AttributeList)
    ensures var usage := ReportedUsage(r, attributes);
      if usage.None? || TokenUsage.Breakdown(usage.value).None? then RelayUsage(r, attributes) == None
      else
        var details := TokenUsage.Breakdown(usage.value).value;
        && RelayUsage(r, attributes) == Some(r.details(TokenUsage.Fields(details)))
        && TokenUsage.ReportsDetails(TokenUsage.CountsOf(usage.value), Some(details))
  {
    var usage := ReportedUsage(r, attributes);
    if usage.Some? { TokenUsage.DetailsAreReported(TokenUsage.CountsOf(usage.value)); }
    hide RelayPayload, TokenUsage.Details, TokenUsage.CountsOf, TokenUsage.ReportsDetails;
  }

  lemma UsageIsOwn(c: Context, name: string, list: AttributeList, usage: Option<string>)
    requires SpanIsOwn(c.r, name, list, c.p, c.h, c.batchId, UsageDetails)
    requires Occurrences(Projection(c.r, name, list), UsageDetails) == (if usage.Some? then 1 else 0)
    requires usage.Some? ==> (UsageDetails, Value.Text(usage.value)) in Projection(c.r, name, list)
    ensures if usage.None? then Count(list, Name(UsageDetails)) == 0 else OnceWith(list, UsageDetails, usage.value)
  {
    UsageIsNoIdentity();
    hide Projection, Name, AttributeValue, Count, Occurrences, SPAN_KEYS, IsProjected;
  }

  lemma UsageIsNoIdentity()
    ensures UsageDetails !in SPAN_KEYS
  {
  }
}
