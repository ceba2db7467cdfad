/**
 A whole export request (canonicalize.go, `Canonicalize`): every resource, scope,
 span, event and link is rewritten, or the request is refused untouched.
 */
module Export {
  import opened Prelude
  import opened Attributes
  import opened Redaction
  import opened Canonical
  import opened Accounting

  datatype ScopeSpans = ScopeSpans(scope: Option<AttributeList>, spans: Spans)

  datatype ResourceSpans = ResourceSpans(resource: Option<AttributeList>, scopes: seq<Option<ScopeSpans>>)

  type Request = seq<Option<ResourceSpans>>

  /** Who sent the batch, and the functions that render and parse payloads. */
  datatype Context = Context(codec: Codec, r: Renderer, p: Principal, h: Headers, batchId: string)

  // --- What the rewriting does ---------------------------------------------

  function CleanList(codec: Codec, list: Option<AttributeList>): Option<AttributeList> {
    if list.None? then None else Some(WithoutCanonical(codec, list.value))
  }

  function CleanLists(codec: Codec, lists: seq<Option<AttributeList>>): (r: seq<Option<AttributeList>>)
    ensures |r| == |lists| && forall i :: 0 <= i < |lists| ==> r[i] == CleanList(codec, lists[i])
  {
    seq(|lists|, i requires 0 <= i < |lists| => CleanList(codec, lists[i]))
  }

  /** A span, once the accounting is projected. */
  function RewriteSpan(c: Context, span: Option<Span>): Option<Span> {
    if span.None? then None
    else
      var s := span.value;
      Some(s.(attributes := CanonicalSpan(c.codec, c.r, s.name, s.attributes, c.p, c.h, c.batchId),
              events := CleanLists(c.codec, s.events), links := CleanLists(c.codec, s.links)))
  }

  /** Some visiting order of the accounting pass, followed by the rewriting of each span, leads here. */
  ghost predicate RewrittenSpans(c: Context, before: Spans, after: Spans) {
    exists logical, latest, order, mid ::
      && Reachable(c.r, before, logical, latest, order, mid)
      && |after| == |mid| && forall i :: 0 <= i < |mid| ==> after[i] == RewriteSpan(c, mid[i])
  }

  ghost predicate RewrittenScope(c: Context, before: Option<ScopeSpans>, after: Option<ScopeSpans>) {
    && (before.None? <==> after.None?)
    && (before.Some? ==>
          && after.value.scope == CleanList(c.codec, before.value.scope)
          && RewrittenSpans(c, before.value.spans, after.value.spans))
  }

  ghost predicate RewrittenScopes(c: Context, before: seq<Option<ScopeSpans>>, after: seq<Option<ScopeSpans>>) {
    |after| == |before| && forall i :: 0 <= i < |before| ==> RewrittenScope(c, before[i], after[i])
  }

  /** A missing resource counts as one without attributes. */
  function ResourceList(resource: Option<AttributeList>): AttributeList {
    if resource.None? then [] else resource.value
  }

  ghost predicate RewrittenResource(c: Context, before: Option<ResourceSpans>, after: Option<ResourceSpans>) {
    && (before.None? <==> after.None?)
    && (before.Some? ==>
          && after.value.resource == Some(CanonicalResource(c.codec, ResourceList(before.value.resource), c.p, c.h, c.batchId))
          && RewrittenScopes(c, before.value.scopes, after.value.scopes))
  }

  ghost predicate Rewritten(c: Context, before: Request, after: Request) {
    |after| == |before| && forall i :: 0 <= i < |before| ==> RewrittenResource(c, before[i], after[i])
  }

  // --- The loops -----------------------------------------------------------

  method DropReservedFrom(codec: Codec, list: Option<AttributeList>) returns (kept: Option<AttributeList>)
    ensures kept == CleanList(codec, list)
  {
    hide WithoutCanonical;
    if list.None? { return None; }
    var attributes := DropReserved(codec, list.value);
    kept := Some(attributes);
  }

  /** The attribute lists of a span's events or links. */
  method DropReservedFromAll(codec: Codec, lists: seq<Option<AttributeList>>) returns (out: seq<Option<AttributeList>>)
    ensures out == CleanLists(codec, lists)
  {
    hide CleanList;
    out := [];
    for i := 0 to |lists|
      invariant |out| == i && forall k :: 0 <= k < i ==> out[k] == CleanList(codec, lists[k])
    {
      var kept := DropReservedFrom(codec, lists[i]);
      out := out + [kept];
    }
  }

  method RewriteOneSpan(c: Context, span: Span) returns (out: Span)
    ensures RewriteSpan(c, Some(span)) == Some(out)
  {
    hide WithoutCanonical, Projection, CleanLists, Rendered, Identity;
    var clean := DropReserved(c.codec, span.attributes);
    var projected := ProjectRelay(c.r, span.name, clean);
    var events := DropReservedFromAll(c.codec, span.events);
    var links := DropReservedFromAll(c.codec, span.links);
    out := span.(attributes := projected + Rendered(Identity(SPAN_KEYS, c.p, c.h, c.batchId)), events := events, links := links);
  }

  method RewriteSpans(c: Context, spans: array<Option<Span>>)
    modifies spans
    ensures RewrittenSpans(c, old(spans[..]), spans[..])
  {
    hide Reachable, RewriteSpan;
    ghost var logical, latest, order := ProjectLogicalAccounting(c.r, spans);
    ghost var mid := spans[..];
    for i := 0 to spans.Length
      invariant forall k :: 0 <= k < i ==> spans[k] == RewriteSpan(c, mid[k])
      invariant forall k :: i <= k < spans.Length ==> spans[k] == mid[k]
    {
      NoSpanStaysNone(c);
      if spans[i].Some? {
        var span := RewriteOneSpan(c, spans[i].value);
        spans[i] := Some(span);
      }
    }
    assert forall i :: 0 <= i < |mid| ==> spans[..][i] == RewriteSpan(c, mid[i]);
  }

  lemma NoSpanStaysNone(c: Context)
    ensures RewriteSpan(c, None) == None
  {
  }

  method RewriteScope(c: Context, scope: ScopeSpans) returns (out: ScopeSpans)
    ensures RewrittenScope(c, Some(scope), Some(out))
  {
    hide RewrittenSpans;
    var spans := new Option<Span>[|scope.spans|](i requires 0 <= i < |scope.spans| => scope.spans[i]);
    assert spans[..] == scope.spans;
    RewriteSpans(c, spans);
    var kept := DropReservedFrom(c.codec, scope.scope);
    out := ScopeSpans(kept, spans[..]);
  }

  method RewriteScopes(c: Context, scopes: seq<Option<ScopeSpans>>) returns (out: seq<Option<ScopeSpans>>)
    ensures RewrittenScopes(c, scopes, out)
  {
    hide RewrittenSpans;
    out := [];
    for i := 0 to |scopes|
      invariant |out| == i && forall k :: 0 <= k < i ==> RewrittenScope(c, scopes[k], out[k])
    {
      if scopes[i].None? {
        out := out + [None];
      } else {
        var scope := RewriteScope(c, scopes[i].value);
        out := out + [Some(scope)];
      }
    }
  }

  method RewriteResource(c: Context, resource: Option<AttributeList>) returns (out: AttributeList)
    ensures out == CanonicalResource(c.codec, ResourceList(resource), c.p, c.h, c.batchId)
  {
    hide WithoutCanonical, Rendered, Identity;
    var kept := DropReserved(c.codec, ResourceList(resource));
    out := kept + Rendered(Identity(RESOURCE_KEYS, c.p, c.h, c.batchId));
  }

  /** `Canonicalize`; a nil request is `None`. */
  method Canonicalize(c: Context, request: Option<Request>) returns (out: Result<Request, ()>)
    ensures out.Err? <==> request.None? || !ValidIdentity(c.p, c.h, c.batchId)
    ensures out.Ok? ==> Rewritten(c, request.value, out.value)
  {
    hide RewrittenScopes, CanonicalResource;
    if request.None? || !ValidIdentity(c.p, c.h, c.batchId) {
      return Err(());
    }
    var resources := request.value;
    var done: Request := [];
    for i := 0 to |resources|
      invariant |done| == i && forall k :: 0 <= k < i ==> RewrittenResource(c, resources[k], done[k])
    {
      if resources[i].None? {
        done := done + [None];
      } else {
        var scopes := RewriteScopes(c, resources[i].value.scopes);
        var resource := RewriteResource(c, resources[i].value.resource);
        done := done + [Some(ResourceSpans(Some(resource), scopes))];
      }
    }
    out := Ok(done);
  }

  // --- What the request can be trusted for ---------------------------------

  ghost predicate NoReserved(list: Option<AttributeList>) {
    list.Some? ==> forall key: Reserved :: Count(list.value, Name(key)) == 0
  }

  ghost predicate NoReservedIn(lists: seq<Option<AttributeList>>) {
    forall i :: 0 <= i < |lists| ==> NoReserved(lists[i])
  }

  ghost predicate TrustedSpan(c: Context, span: Option<Span>) {
    span.Some? ==>
      && NoReservedIn(span.value.events) && NoReservedIn(span.value.links)
      && forall key: Reserved :: SpanIsOwn(c.r, span.value.name, span.value.attributes, c.p, c.h, c.batchId, key)
  }

  ghost predicate TrustedScope(c: Context, scope: Option<ScopeSpans>) {
    scope.Some? ==>
      && NoReserved(scope.value.scope)
      && forall i :: 0 <= i < |scope.value.spans| ==> TrustedSpan(c, scope.value.spans[i])
  }

  ghost predicate TrustedResource(c: Context, rs: Option<ResourceSpans>) {
    rs.Some? ==>
      && rs.value.resource.Some?
      && (forall key: Reserved ::
            if key in RESOURCE_KEYS then OnceWith(rs.value.resource.value, key, Trusted(key, c.p, c.h, c.batchId))
            else Count(rs.value.resource.value, Name(key)) == 0)
      && forall i :: 0 <= i < |rs.value.scopes| ==> TrustedScope(c, rs.value.scopes[i])
  }

  lemma CleanListsHaveNone(codec: Codec, lists: seq<Option<AttributeList>>)
    ensures NoReservedIn(CleanLists(codec, lists))
  {
    forall i | 0 <= i < |lists| ensures NoReserved(CleanList(codec, lists[i])) {
      CleanListHasNone(codec, lists[i]);
    }
    hide NoReserved;
  }

  lemma CleanListHasNone(codec: Codec, list: Option<AttributeList>)
    ensures NoReserved(CleanList(codec, list))
  {
    hide Name, WithoutCanonical;
    if list.Some? {
      forall key: Reserved ensures Count(WithoutCanonical(codec, list.value), Name(key)) == 0 {
        NoReservedKeyIsLeft(codec, list.value, key);
      }
    }
  }

  lemma RewrittenSpanIsTrusted(c: Context, span: Option<Span>)
    ensures TrustedSpan(c, RewriteSpan(c, span))
  {
    hide CanonicalSpan, SpanIsOwn, CleanLists, NoReservedIn;
    if span.Some? {
      var s := span.value;
      CleanListsHaveNone(c.codec, s.events);
      CleanListsHaveNone(c.codec, s.links);
      var list := CanonicalSpan(c.codec, c.r, s.name, s.attributes, c.p, c.h, c.batchId);
      forall key: Reserved ensures SpanIsOwn(c.r, s.name, list, c.p, c.h, c.batchId, key) {
        SpanIdentityIsTrusted(c.codec, c.r, s.name, s.attributes, c.p, c.h, c.batchId, key);
      }
    }
  }

  lemma RewrittenScopeIsTrusted(c: Context, before: Option<ScopeSpans>, after: Option<ScopeSpans>)
    requires RewrittenScope(c, before, after)
    ensures TrustedScope(c, after)
  {
    hide CleanList, NoReserved, TrustedSpan, RewriteSpan, Reachable;
    if before.Some? {
      CleanListHasNone(c.codec, before.value.scope);
      forall i | 0 <= i < |after.value.spans| ensures TrustedSpan(c, after.value.spans[i]) {
        var logical, latest, order, mid :|
          && Reachable(c.r, before.value.spans, logical, latest, order, mid)
          && |after.value.spans| == |mid| && forall i :: 0 <= i < |mid| ==> after.value.spans[i] == RewriteSpan(c, mid[i]);
        RewrittenSpanIsTrusted(c, mid[i]);
      }
    }
  }

  lemma RewrittenResourceIsTrusted(c: Context, before: Option<ResourceSpans>, after: Option<ResourceSpans>)
    requires RewrittenResource(c, before, after)
    ensures TrustedResource(c, after)
  {
    hide Name, CanonicalResource, Trusted, OnceWith, RewrittenScope, TrustedScope, RESOURCE_KEYS;
    if before.Some? {
      var list := CanonicalResource(c.codec, ResourceList(before.value.resource), c.p, c.h, c.batchId);
      forall key: Reserved
        ensures if key in RESOURCE_KEYS then OnceWith(list, key, Trusted(key, c.p, c.h, c.batchId)) else Count(list, Name(key)) == 0
      {
        ResourceIdentityIsTrusted(c.codec, ResourceList(before.value.resource), c.p, c.h, c.batchId, key);
      }
      forall i | 0 <= i < |after.value.scopes| ensures TrustedScope(c, after.value.scopes[i]) {
        RewrittenScopeIsTrusted(c, before.value.scopes[i], after.value.scopes[i]);
      }
    }
  }

  /** Whatever the client sent, a rewritten request carries the trusted identity everywhere and forges it nowhere. */
  lemma RewrittenRequestIsTrusted(c: Context, before: Request, after: Request, i: nat)
    requires Rewritten(c, before, after) && i < |after|
    ensures TrustedResource(c, after[i])
  {
    hide RewrittenResource, TrustedResource;
    RewrittenResourceIsTrusted(c, before[i], after[i]);
  }

  /** If no logical call is of scope type llm, the rewritten spans come from the settled accounting. */
  lemma RewrittenFromSettled(c: Context, before: Spans, after: Spans) returns (mid: Spans)
    requires RewrittenSpans(c, before, after) && NoLlmLogical(before)
    ensures Settled(c.r, before, mid)
    ensures |after| == |mid| && forall i :: 0 <= i < |mid| ==> after[i] == RewriteSpan(c, mid[i])
  {
    hide RewriteSpan, NoLlmLogical, Settled, NothingFlows, LogicalMap, LatestMap, Visits, ApplyInOrder;
    var logical, latest, order, m :| Reachable(c.r, before, logical, latest, order, m)
      && |after| == |m| && forall i :: 0 <= i < |m| ==> after[i] == RewriteSpan(c, m[i]);
    mid := m;
    NoLlmLogicalNothingFlows(c.r, before, logical, latest);
    AnyOrderSettles(c.r, before, logical, latest, order, mid);
  }

  /** If no logical call is of scope type llm, the rewriting of a scope's spans has one outcome. */
  lemma RewritingIsDeterministic(c: Context, before: Spans, a: Spans, b: Spans)
    requires RewrittenSpans(c, before, a) && RewrittenSpans(c, before, b) && NoLlmLogical(before)
    ensures a == b
  {
    var midA := RewrittenFromSettled(c, before, a);
    var midB := RewrittenFromSettled(c, before, b);
    SettledIsUnique(c.r, before, midA, midB);
    hide *;
    assert forall i :: 0 <= i < |a| ==> a[i] == RewriteSpan(c, midA[i]);
  }
}
