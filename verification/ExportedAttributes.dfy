/**
 What a rewritten request carries, attribute by attribute (canonicalize.go): the
 keys as a backend reads them, and where the value under each comes from.
 */
module ExportedAttributes {
  import opened Prelude
  import opened Attributes
  import opened Redaction
  import opened RedactionTerms
  import opened Canonical
  import opened Accounting
  import opened Export
  import opened Generations
  import opened Text

  /** `name` occurs exactly once, with this text. */
  ghost predicate Once(list: AttributeList, name: string, text: string) {
    Count(list, name) == 1 && StringValue(list, name) == Some(text)
  }

  // --- Identity ------------------------------------------------------------

  lemma PositionIsIndex(key: Reserved)
    ensures Position(key).0 >= 0 <==> key in RESOURCE_KEYS
    ensures Position(key).1 >= 0 <==> key in SPAN_KEYS
  {
    assert forall i :: 0 <= i < |RESOURCE_KEYS| ==> Position(RESOURCE_KEYS[i]).0 == i;
    assert forall i :: 0 <= i < |SPAN_KEYS| ==> Position(SPAN_KEYS[i]).1 == i;
    var i, j := Position(key).0, Position(key).1;
    assert i >= 0 ==> i < |RESOURCE_KEYS| && RESOURCE_KEYS[i] == key;
    assert j >= 0 ==> j < |SPAN_KEYS| && SPAN_KEYS[j] == key;
  }

  lemma ResourceKeyCarried(c: Context, attributes: AttributeList, key: Reserved)
    requires Position(key).0 >= 0
    ensures Once(CanonicalResource(c.codec, attributes, c.p, c.h, c.batchId), Name(key), Trusted(key, c.p, c.h, c.batchId))
  {
    PositionIsIndex(key);
    ResourceIdentityIsTrusted(c.codec, attributes, c.p, c.h, c.batchId, key);
    hide CanonicalResource, Name, Trusted, RESOURCE_KEYS;
  }

  lemma SpanKeyCarried(c: Context, name: string, attributes: AttributeList, key: Reserved)
    requires Position(key).1 >= 0
    ensures Once(CanonicalSpan(c.codec, c.r, name, attributes, c.p, c.h, c.batchId), Name(key), Trusted(key, c.p, c.h, c.batchId))
  {
    PositionIsIndex(key);
    SpanIdentityIsTrusted(c.codec, c.r, name, attributes, c.p, c.h, c.batchId, key);
    hide CanonicalSpan, Name, Trusted, SPAN_KEYS;
  }

  /** The fourteen identity attributes of every resource. */
  lemma ResourceCarries(c: Context, attributes: AttributeList)
    ensures var list := CanonicalResource(c.codec, attributes, c.p, c.h, c.batchId);
      && Once(list, "platform.user.id", c.p.userId) && Once(list, "ansatz.account.id", c.p.accountId)
      && Once(list, "user.id", c.p.username) && Once(list, "langfuse.user.id", c.p.username)
      && Once(list, "langfuse.trace.metadata.username", c.p.username)
      && Once(list, "client.installation.id", c.p.installationId)
      && Once(list, "hermes.session.id", c.h.sessionId) && Once(list, "session.id", c.h.sessionId)
      && Once(list, "langfuse.session.id", c.h.sessionId) && Once(list, "gen_ai.conversation.id", c.h.sessionId)
      && Once(list, "hermes.entrypoint", c.h.entrypoint) && Once(list, "hermes.run.id", c.h.runId)
      && Once(list, "telemetry.schema.version", "1") && Once(list, "trace.gateway.batch.id", c.batchId)
  {
    hide CanonicalResource, Once;
    ResourceKeyCarried(c, attributes, PlatformUserId);
    ResourceKeyCarried(c, attributes, AccountId);
    ResourceKeyCarried(c, attributes, UserId);
    ResourceKeyCarried(c, attributes, LangfuseUserId);
    ResourceKeyCarried(c, attributes, Username);
    ResourceKeyCarried(c, attributes, InstallationId);
    ResourceKeyCarried(c, attributes, HermesSessionId);
    ResourceKeyCarried(c, attributes, SessionId);
    ResourceKeyCarried(c, attributes, LangfuseSessionId);
    ResourceKeyCarried(c, attributes, ConversationId);
    ResourceKeyCarried(c, attributes, Entrypoint);
    ResourceKeyCarried(c, attributes, RunId);
    ResourceKeyCarried(c, attributes, SchemaVersion);
    ResourceKeyCarried(c, attributes, BatchId);
  }

  /** The six identity attributes of every span. */
  lemma SpanCarries(c: Context, name: string, attributes: AttributeList)
    ensures var list := CanonicalSpan(c.codec, c.r, name, attributes, c.p, c.h, c.batchId);
      && Once(list, "user.id", c.p.username) && Once(list, "langfuse.user.id", c.p.username)
      && Once(list, "langfuse.trace.metadata.username", c.p.username)
      && Once(list, "session.id", c.h.sessionId) && Once(list, "langfuse.session.id", c.h.sessionId)
      && Once(list, "gen_ai.conversation.id", c.h.sessionId)
  {
    hide CanonicalSpan, Once;
    SpanKeyCarried(c, name, attributes, UserId);
    SpanKeyCarried(c, name, attributes, LangfuseUserId);
    SpanKeyCarried(c, name, attributes, Username);
    SpanKeyCarried(c, name, attributes, SessionId);
    SpanKeyCarried(c, name, attributes, LangfuseSessionId);
    SpanKeyCarried(c, name, attributes, ConversationId);
  }

  /**
   A request is accepted exactly if its schema version is 1 and none of the
   identity attributes that go onto its resources would be empty.
   */
  lemma AcceptedIffIdentified(c: Context, attributes: AttributeList)
    ensures ValidIdentity(c.p, c.h, c.batchId) <==>
      && c.h.schemaVersion == "1"
      && forall key :: key in RESOURCE_KEYS ==>
           StringValue(CanonicalResource(c.codec, attributes, c.p, c.h, c.batchId), Name(key)) != Some("")
  {
    IdentifiedIffNoneEmpty(c);
    hide CanonicalResource, StringValue, Name, Count, Trusted, ValidIdentity, Position, RESOURCE_KEYS;
    forall key ensures Position(key).0 >= 0 <==> key in RESOURCE_KEYS { PositionIsIndex(key); }
    forall key | Position(key).0 >= 0
      ensures StringValue(CanonicalResource(c.codec, attributes, c.p, c.h, c.batchId), Name(key))
        == Some(Trusted(key, c.p, c.h, c.batchId))
    {
      ResourceKeyCarried(c, attributes, key);
    }
  }

  lemma IdentifiedIffNoneEmpty(c: Context)
    ensures ValidIdentity(c.p, c.h, c.batchId) <==>
      c.h.schemaVersion == "1" && forall key :: Position(key).0 >= 0 ==> Trusted(key, c.p, c.h, c.batchId) != ""
  {
    if forall key :: Position(key).0 >= 0 ==> Trusted(key, c.p, c.h, c.batchId) != "" {
      assert Trusted(PlatformUserId, c.p, c.h, c.batchId) == c.p.userId;
      assert Trusted(AccountId, c.p, c.h, c.batchId) == c.p.accountId;
      assert Trusted(UserId, c.p, c.h, c.batchId) == c.p.username;
      assert Trusted(InstallationId, c.p, c.h, c.batchId) == c.p.installationId;
      assert Trusted(SessionId, c.p, c.h, c.batchId) == c.h.sessionId;
      assert Trusted(Entrypoint, c.p, c.h, c.batchId) == c.h.entrypoint;
      assert Trusted(RunId, c.p, c.h, c.batchId) == c.h.runId;
      assert Trusted(BatchId, c.p, c.h, c.batchId) == c.batchId;
    }
  }

  /** The keys a client cannot set. */
  lemma ReservedByName(key: string)
    ensures IsReserved(key) <==>
      || key == "platform.user.id" || key == "ansatz.account.id" || key == "user.id" || key == "langfuse.user.id"
      || key == "client.installation.id" || key == "hermes.session.id" || key == "session.id" || key == "langfuse.session.id"
      || key == "gen_ai.conversation.id" || key == "hermes.entrypoint" || key == "hermes.run.id"
      || key == "telemetry.schema.version" || key == "trace.gateway.request.id" || key == "trace.gateway.batch.id"
      || key == "langfuse.trace.input" || key == "langfuse.trace.output" || key == "langfuse.observation.type"
      || key == "langfuse.observation.input" || key == "langfuse.observation.output"
      || key == "langfuse.observation.model.name" || key == "langfuse.observation.usage_details"
      || key == "gen_ai.usage.cost" || key == "langfuse.trace.metadata.username"
  {
    assert forall r: Reserved :: Name(r) == key ==> IsReserved(key);
    assert (key in {Name(PlatformUserId), Name(AccountId), Name(UserId), Name(LangfuseUserId), Name(InstallationId),
                   Name(HermesSessionId), Name(SessionId), Name(LangfuseSessionId), Name(ConversationId), Name(Entrypoint),
                   Name(RunId), Name(SchemaVersion), Name(RequestId), Name(BatchId), Name(TraceInput), Name(TraceOutput),
                   Name(ObservationType), Name(ObservationInput), Name(ObservationOutput), Name(ModelName),
                   Name(UsageDetails), Name(UsageCost), Name(Username)}) <==> IsReserved(key);
  }

  // --- The projection for Langfuse -----------------------------------------

  lemma AbsentHasNoValue(list: AttributeList, name: string)
    requires Count(list, name) == 0
    ensures AttributeValue(list, name) == None
  {
    ValueBehind(list, [], name);
    assert list + [] == list;
  }

  /** A key is there once with this value, or not at all. */
  ghost predicate Holds(list: AttributeList, name: string, value: Option<Value>) {
    AttributeValue(list, name) == value && Count(list, name) == if value.Some? then 1 else 0
  }

  /** The list holds what the candidate at `i` found, once, or nothing under its key. */
  lemma CandidateIsExported(c: Context, name: string, attributes: AttributeList, i: nat, key: Reserved, value: Option<Value>)
    requires i < |Candidates(c.r, name, WithoutCanonical(c.codec, attributes))|
    requires Candidates(c.r, name, WithoutCanonical(c.codec, attributes))[i] == (key, value)
    ensures Holds(CanonicalSpan(c.codec, c.r, name, attributes, c.p, c.h, c.batchId), Name(key), value)
  {
    var clean := WithoutCanonical(c.codec, attributes);
    var list := CanonicalSpan(c.codec, c.r, name, attributes, c.p, c.h, c.batchId);
    var candidates := Candidates(c.r, name, clean);
    CandidatesAscend(c.r, name, clean);
    SpanIdentityIsTrusted(c.codec, c.r, name, attributes, c.p, c.h, c.batchId, key);
    CanonicalProjection(c.codec, c.r, name, attributes, c.p, c.h, c.batchId);
    RankedIsNoIdentity(key);
    hide Candidates, CanonicalSpan, WithoutCanonical, Name, SPAN_KEYS, Count, AttributeValue, Rank, Present, Occurrences;
    CandidateOccurs(candidates, i);
    if candidates[i].1.None? { AbsentHasNoValue(list, Name(key)); }
  }

  lemma RankedIsNoIdentity(key: Reserved)
    requires Rank(key) > 0
    ensures key !in SPAN_KEYS
  {
  }

  /** The text of a payload: of the attribute itself, or else of the group of attributes below it. */
  ghost predicate Payload(r: Renderer, attributes: AttributeList, name: string, text: Option<string>) {
    match AttributeValue(attributes, name)
    case Some(Text(own)) => text == Some(own)
    case Some(value) => text == Some(r.value(value))
    case None => text == if Group(attributes, name) == [] then None else r.group(Group(attributes, name))
  }

  /** One attribute, if there, is preferred to that payload. */
  ghost predicate PreferredPayload(r: Renderer, attributes: AttributeList, preferred: string, name: string, text: Option<string>) {
    match AttributeValue(attributes, preferred)
    case Some(Text(own)) => text == Some(own)
    case Some(value) => text == Some(r.value(value))
    case None => Payload(r, attributes, name, text)
  }

  lemma ProjectedNames()
    ensures Name(ObservationType) == "langfuse.observation.type" && Name(ObservationInput) == "langfuse.observation.input"
    ensures Name(ObservationOutput) == "langfuse.observation.output" && Name(TraceInput) == "langfuse.trace.input"
    ensures Name(TraceOutput) == "langfuse.trace.output" && Name(ModelName) == "langfuse.observation.model.name"
    ensures Name(UsageDetails) == "langfuse.observation.usage_details" && Name(UsageCost) == "gen_ai.usage.cost"
  {
  }

  lemma TurnCandidatesAre(r: Renderer, attributes: AttributeList)
    ensures var input := Wrapped(StringValue(attributes, "nemo_relay.start.input.user"));
      var output := Wrapped(StringValue(attributes, "nemo_relay.end.output.assistant"));
      var candidates := Candidates(r, "hermes.turn", attributes);
      && |candidates| == 5
      && candidates[0] == (ObservationType, Some(Value.Text("span")))
      && candidates[1] == (ObservationInput, input) && candidates[2] == (TraceInput, input)
      && candidates[3] == (ObservationOutput, output) && candidates[4] == (TraceOutput, output)
  {
    hide StringValue;
  }

  /** A turn: the user's input and the assistant's output, for the observation and the trace alike. */
  lemma TurnIsProjected(c: Context, attributes: AttributeList)
    ensures var clean := WithoutCanonical(c.codec, attributes);
      var list := CanonicalSpan(c.codec, c.r, "hermes.turn", attributes, c.p, c.h, c.batchId);
      var input, output := StringValue(clean, "nemo_relay.start.input.user"), StringValue(clean, "nemo_relay.end.output.assistant");
      && Holds(list, "langfuse.observation.type", Some(Value.Text("span")))
      && Holds(list, "langfuse.observation.input", Wrapped(input)) && Holds(list, "langfuse.trace.input", Wrapped(input))
      && Holds(list, "langfuse.observation.output", Wrapped(output)) && Holds(list, "langfuse.trace.output", Wrapped(output))
  {
    hide *;
    var clean := WithoutCanonical(c.codec, attributes);
    var input := Wrapped(StringValue(clean, "nemo_relay.start.input.user"));
    var output := Wrapped(StringValue(clean, "nemo_relay.end.output.assistant"));
    TurnCandidatesAre(c.r, clean);
    ProjectedNames();
    CandidateIsExported(c, "hermes.turn", attributes, 0, ObservationType, Some(Value.Text("span")));
    CandidateIsExported(c, "hermes.turn", attributes, 1, ObservationInput, input);
    CandidateIsExported(c, "hermes.turn", attributes, 2, TraceInput, input);
    CandidateIsExported(c, "hermes.turn", attributes, 3, ObservationOutput, output);
    CandidateIsExported(c, "hermes.turn", attributes, 4, TraceOutput, output);
  }

  lemma PreferredIsPayload(r: Renderer, attributes: AttributeList, preferred: string, name: string)
    ensures PreferredPayload(r, attributes, preferred, name, PreferredRelayPayload(r, attributes, preferred, name))
    ensures Payload(r, attributes, name, RelayPayload(r, attributes, name))
  {
    hide AttributeValue, Group;
  }

  function ModelOf(r: Renderer, model: Option<string>): Option<Value> {
    match model case Some(name) => Some(Value.Text(r.modelName(name))) case None => None
  }

  function CostOf(r: Renderer, cost: Option<Value>): Option<Value> {
    match cost case Some(value) => r.cost(value) case None => None
  }

  lemma GenerationCandidatesAre(r: Renderer, name: string, attributes: AttributeList) returns (input: Option<string>, output: Option<string>)
    requires name != "hermes.turn" && StringValue(attributes, "nemo_relay.scope_type") == Some("llm")
    ensures PreferredPayload(r, attributes, "nemo_relay.start.input.content", "nemo_relay.start.input", input)
    ensures PreferredPayload(r, attributes, "nemo_relay.end.output.choices", "nemo_relay.end.output", output)
    ensures var candidates := Candidates(r, name, attributes);
      && |candidates| == 6
      && candidates[0] == (ObservationType, Some(Value.Text("generation")))
      && candidates[1] == (ObservationInput, Wrapped(input)) && candidates[2] == (ObservationOutput, Wrapped(output))
      && candidates[3] == (ModelName, ModelOf(r, StringValue(attributes, "nemo_relay.model_name")))
      && candidates[4].0 == UsageDetails
      && candidates[5] == (UsageCost, CostOf(r, AttributeValue(attributes, "nemo_relay.end.output.cost_usd")))
  {
    PreferredIsPayload(r, attributes, INPUT_CONTENT, INPUT);
    PreferredIsPayload(r, attributes, OUTPUT_CHOICES, OUTPUT);
    hide StringValue, AttributeValue, PreferredRelayPayload, PreferredPayload, RelayUsage;
    input := PreferredRelayPayload(r, attributes, INPUT_CONTENT, INPUT);
    output := PreferredRelayPayload(r, attributes, OUTPUT_CHOICES, OUTPUT);
  }

  /** A generation: what went in, what came out, the model and the cost. */
  lemma GenerationIsProjected(c: Context, name: string, attributes: AttributeList) returns (input: Option<string>, output: Option<string>)
    requires name != "hermes.turn"
    requires StringValue(WithoutCanonical(c.codec, attributes), "nemo_relay.scope_type") == Some("llm")
    ensures var clean := WithoutCanonical(c.codec, attributes);
      var list := CanonicalSpan(c.codec, c.r, name, attributes, c.p, c.h, c.batchId);
      && Holds(list, "langfuse.observation.type", Some(Value.Text("generation")))
      && PreferredPayload(c.r, clean, "nemo_relay.start.input.content", "nemo_relay.start.input", input)
      && Holds(list, "langfuse.observation.input", Wrapped(input))
      && PreferredPayload(c.r, clean, "nemo_relay.end.output.choices", "nemo_relay.end.output", output)
      && Holds(list, "langfuse.observation.output", Wrapped(output))
      && Holds(list, "langfuse.observation.model.name", ModelOf(c.r, StringValue(clean, "nemo_relay.model_name")))
      && Holds(list, "gen_ai.usage.cost", CostOf(c.r, AttributeValue(clean, "nemo_relay.end.output.cost_usd")))
  {
    hide *;
    var clean := WithoutCanonical(c.codec, attributes);
    input, output := GenerationCandidatesAre(c.r, name, clean);
    ProjectedNames();
    CandidateIsExported(c, name, attributes, 0, ObservationType, Some(Value.Text("generation")));
    CandidateIsExported(c, name, attributes, 1, ObservationInput, Wrapped(input));
    CandidateIsExported(c, name, attributes, 2, ObservationOutput, Wrapped(output));
    CandidateIsExported(c, name, attributes, 3, ModelName, ModelOf(c.r, StringValue(clean, "nemo_relay.model_name")));
    CandidateIsExported(c, name, attributes, 5, UsageCost, CostOf(c.r, AttributeValue(clean, "nemo_relay.end.output.cost_usd")));
  }

  lemma ToolCandidatesAre(r: Renderer, name: string, attributes: AttributeList) returns (input: Option<string>, output: Option<string>)
    requires name != "hermes.turn" && StringValue(attributes, "nemo_relay.scope_type") == Some("tool")
    ensures Payload(r, attributes, "nemo_relay.start.input", input) && Payload(r, attributes, "nemo_relay.end.output", output)
    ensures var candidates := Candidates(r, name, attributes);
      && |candidates| == 3
      && candidates[0] == (ObservationType, Some(Value.Text("span")))
      && candidates[1] == (ObservationInput, Wrapped(input)) && candidates[2] == (ObservationOutput, Wrapped(output))
  {
    PreferredIsPayload(r, attributes, INPUT, INPUT);
    PreferredIsPayload(r, attributes, OUTPUT, OUTPUT);
    hide StringValue, AttributeValue, RelayPayload, Payload;
    input := RelayPayload(r, attributes, INPUT);
    output := RelayPayload(r, attributes, OUTPUT);
    assert "tool"[0] == 't' && "llm"[0] == 'l';
  }

  /** A tool call: its input and output. */
  lemma ToolIsProjected(c: Context, name: string, attributes: AttributeList) returns (input: Option<string>, output: Option<string>)
    requires name != "hermes.turn"
    requires StringValue(WithoutCanonical(c.codec, attributes), "nemo_relay.scope_type") == Some("tool")
    ensures var clean := WithoutCanonical(c.codec, attributes);
      var list := CanonicalSpan(c.codec, c.r, name, attributes, c.p, c.h, c.batchId);
      && Holds(list, "langfuse.observation.type", Some(Value.Text("span")))
      && Payload(c.r, clean, "nemo_relay.start.input", input) && Holds(list, "langfuse.observation.input", Wrapped(input))
      && Payload(c.r, clean, "nemo_relay.end.output", output) && Holds(list, "langfuse.observation.output", Wrapped(output))
  {
    hide *;
    input, output := ToolCandidatesAre(c.r, name, WithoutCanonical(c.codec, attributes));
    ProjectedNames();
    CandidateIsExported(c, name, attributes, 0, ObservationType, Some(Value.Text("span")));
    CandidateIsExported(c, name, attributes, 1, ObservationInput, Wrapped(input));
    CandidateIsExported(c, name, attributes, 2, ObservationOutput, Wrapped(output));
  }

  /** A span of any other kind gets nothing under the projected keys. */
  lemma OthersAreNotProjected(c: Context, name: string, attributes: AttributeList, key: Reserved)
    requires name != "hermes.turn" && IsProjected(key)
    requires var scope := StringValue(WithoutCanonical(c.codec, attributes), "nemo_relay.scope_type");
      scope != Some("llm") && scope != Some("tool")
    ensures Count(CanonicalSpan(c.codec, c.r, name, attributes, c.p, c.h, c.batchId), Name(key)) == 0
  {
    SpanIdentityIsTrusted(c.codec, c.r, name, attributes, c.p, c.h, c.batchId, key);
    CanonicalProjection(c.codec, c.r, name, attributes, c.p, c.h, c.batchId);
    RankedIsNoIdentity(key);
    hide CanonicalSpan, WithoutCanonical, Name, SPAN_KEYS, Count, StringValue, Rank;
  }

  // --- Groups --------------------------------------------------------------

  /** The group below a name is made of the attributes called `name.suffix` that have a value. */
  lemma {:induction false} GroupIff(attributes: AttributeList, name: string, suffix: string, value: Value)
    ensures (suffix, value) in Group(attributes, name) <==>
      suffix != "" && Some(KeyValue(name + "." + suffix, Some(value))) in attributes
  {
    if attributes != [] {
      var head := attributes[0];
      GroupIff(attributes[1..], name, suffix, value);
      assert attributes == [head] + attributes[1..];
      DottedIff(name, suffix, if head.Some? then head.value.key else "");
    }
  }

  lemma DottedIff(name: string, suffix: string, key: string)
    ensures key == name + "." + suffix && suffix != "" <==>
      HasPrefix(key, name + ".") && |key| > |name| + 1 && key[|name| + 1..] == suffix
  {
    var dotted := name + ".";
    assert dotted + suffix == name + "." + suffix;
    if HasPrefix(key, dotted) { assert key == dotted + key[|dotted|..]; }
    assert (dotted + suffix)[|dotted|..] == suffix;
  }

  // --- What the client sent ------------------------------------------------

  /** Of a redacted list exactly the attributes with a reserved key are dropped. */
  lemma {:induction false} UnreservedIff(list: AttributeList, a: Option<KeyValue>)
    ensures a in Unreserved(list) <==> a in list && a.Some? && !IsReserved(a.value.key)
  {
    if list != [] {
      var front, last := list[..|list| - 1], list[|list| - 1];
      assert list == front + [last];
      UnreservedIff(front, a);
      hide IsReserved;
    }
  }

  lemma {:induction false} NothingReserved(list: AttributeList)
    requires forall i :: 0 <= i < |list| ==> list[i].Some? && !IsReserved(list[i].value.key)
    ensures Unreserved(list) == list
  {
    hide IsReserved;
    if list != [] {
      assert list == list[..|list| - 1] + [list[|list| - 1]];
      NothingReserved(list[..|list| - 1]);
    }
  }

  /**
   Ordinary attributes arrive as they were sent: a list that names no secret, holds
   no media and no embedded JSON, claims no reserved key and nests within the depth
   budget is followed by the trusted identity and otherwise unchanged.
   */
  lemma OrdinaryAttributesArrive(c: Context, list: AttributeList)
    requires |list| <= 256 && ListNesting(list) <= 12
    requires forall i :: 0 <= i < |list| ==> PlainAttribute(c.codec, list[i]) && !IsReserved(list[i].value.key)
    ensures WithoutCanonical(c.codec, list) == list
    ensures list <= CanonicalResource(c.codec, list, c.p, c.h, c.batchId)
  {
    hide PlainKey, PlainValue, IsReserved, AttributesAtDepth, Unreserved, ListNesting, Rendered;
    PlainListPasses(c.codec, list, 0);
    forall i | 0 <= i < |list| ensures list[i].Some? && !IsReserved(list[i].value.key) {
      assert PlainAttribute(c.codec, list[i]);
    }
    NothingReserved(list);
  }

  /** A span keeps its name, its ids and its end, and each event and link its own list, redacted. */
  lemma SpanIsKept(c: Context, span: Span)
    ensures var out := RewriteSpan(c, Some(span));
      && out.Some?
      && out.value.name == span.name && out.value.spanId == span.spanId && out.value.parentSpanId == span.parentSpanId
      && out.value.endTime == span.endTime
      && out.value.attributes == CanonicalSpan(c.codec, c.r, span.name, span.attributes, c.p, c.h, c.batchId)
      && ListsAreKept(c, span.events, out.value.events) && ListsAreKept(c, span.links, out.value.links)
  {
    hide CanonicalSpan, WithoutCanonical;
  }

  ghost predicate ListsAreKept(c: Context, before: seq<Option<AttributeList>>, after: seq<Option<AttributeList>>) {
    |after| == |before|
    && forall i :: 0 <= i < |before| ==>
         && (before[i].None? <==> after[i].None?)
         && (before[i].Some? ==> after[i].value == WithoutCanonical(c.codec, before[i].value))
  }

  // --- The accounting of a logical call ------------------------------------

  /** The span is the logical call `id`. */
  ghost predicate IsCall(span: Option<Span>, id: SpanId) {
    span.Some? && span.value.name == "hermes.logical_llm_call" && id != [] && span.value.spanId == id
  }

  /** The span is an LLM request made for the call `id`. */
  ghost predicate IsAttempt(span: Option<Span>, id: SpanId) {
    && span.Some? && StringValue(span.value.attributes, "nemo_relay.scope_type") == Some("llm")
    && id != [] && span.value.parentSpanId == id
  }

  /** The attribute, which has a value, is the one called `name` or one below it. */
  predicate Belongs(a: Option<KeyValue>, name: string) {
    a.Some? && a.value.value.Some? && (a.value.key == name || name + "." <= a.value.key)
  }

  /** `own` is followed by these attributes of `source` and nothing else. */
  ghost predicate Extended(own: AttributeList, source: AttributeList, after: AttributeList, usage: bool, cost: bool) {
    && own <= after
    && forall a :: a in after[|own|..] <==>
         a in source && ((usage && Belongs(a, "nemo_relay.end.output.usage")) || (cost && Belongs(a, "nemo_relay.end.output.cost_usd")))
  }

  lemma RolesByName(spans: Spans, id: SpanId, i: nat, l: nat)
    requires i < |spans| && l < |spans|
    requires IsCall(spans[l], id) && forall j :: l < j < |spans| ==> !IsCall(spans[j], id)
    requires IsAttempt(spans[i], id)
    requires forall j :: 0 <= j < |spans| && IsAttempt(spans[j], id) ==>
      spans[j].value.endTime < spans[i].value.endTime || (spans[j].value.endTime == spans[i].value.endTime && j <= i)
    ensures LogicalFor(spans, id, l) && LatestFor(spans, id, i)
  {
    hide StringValue;
    assert forall j :: 0 <= j < |spans| ==> (IsLogical(spans[j], id) <==> IsCall(spans[j], id));
    assert forall j :: 0 <= j < |spans| ==> (ChildOf(spans[j], id) <==> IsAttempt(spans[j], id));
    hide IsLogical, ChildOf, IsCall, IsAttempt;
    assert AttemptOf(spans, id, i);
  }

  /**
   Settled accounting, by name: of the LLM requests made for a logical call, the
   last of those that end last gets the usage and the cost of the last span that is
   that call, each only if it has none of its own.
   */
  lemma LastAttemptIsCharged(r: Renderer, before: Spans, after: Spans, id: SpanId, i: nat, l: nat)
    requires Settled(r, before, after) && i < |before| && l < |before|
    requires IsCall(before[l], id) && forall j :: l < j < |before| ==> !IsCall(before[j], id)
    requires IsAttempt(before[i], id)
    requires forall j :: 0 <= j < |before| && IsAttempt(before[j], id) ==>
      before[j].value.endTime < before[i].value.endTime || (before[j].value.endTime == before[i].value.endTime && j <= i)
    ensures |after| == |before| && after[i].Some?
    ensures var own := before[i].value.attributes;
      Extended(own, before[l].value.attributes, after[i].value.attributes,
               RelayPayload(r, own, "nemo_relay.end.output.usage").None?, AttributeValue(own, "nemo_relay.end.output.cost_usd").None?)
  {
    RolesByName(before, id, i, l);
    hide IsCall, IsAttempt, LatestFor, LogicalFor, StringValue;
    GainIsExtension(r, before[i].value.attributes, before[l].value.attributes);
    hide Gain, Extended, RelayPayload, AttributeValue;
  }

  lemma GainIsExtension(r: Renderer, own: AttributeList, source: AttributeList)
    ensures Extended(own, source, Gain(r, own, source),
                     RelayPayload(r, own, "nemo_relay.end.output.usage").None?,
                     AttributeValue(own, "nemo_relay.end.output.cost_usd").None?)
  {
    GainIsWhatIsMissing(r, own, source);
    hide Gain, Below, RelayPayload, AttributeValue;
    var usage := Part(source, USAGE, RelayPayload(r, own, USAGE).None?);
    var cost := Part(source, COST, AttributeValue(own, COST).None?);
    assert (own + usage + cost)[|own|..] == usage + cost;
    forall a ensures a in Below(source, USAGE) <==> a in source && Belongs(a, USAGE) { BelowIsFilter(source, USAGE, a); }
    forall a ensures a in Below(source, COST) <==> a in source && Belongs(a, COST) { BelowIsFilter(source, COST, a); }
  }
}
