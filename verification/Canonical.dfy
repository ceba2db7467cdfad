/**
 Rewriting one export request (canonicalize.go): reserved keys are removed
 everywhere, the relay attributes are projected for Langfuse, and the trusted
 identity is appended to every resource and span.
 */
module Canonical {
  import opened Prelude
  import opened Attributes
  import opened Json
  import opened Redaction
  import opened Text
  import TokenUsage

  // --- The reserved keys ---------------------------------------------------

  datatype Reserved =
    | PlatformUserId | AccountId | UserId | LangfuseUserId | InstallationId | HermesSessionId
    | SessionId | LangfuseSessionId | ConversationId | Entrypoint | RunId | SchemaVersion
    | RequestId | BatchId | TraceInput | TraceOutput | ObservationType | ObservationInput
    | ObservationOutput | ModelName | UsageDetails | UsageCost | Username

  function Name(key: Reserved): string {
    match key
    case PlatformUserId => "platform.user.id"
    case AccountId => "ansatz.account.id"
    case UserId => "user.id"
    case LangfuseUserId => "langfuse.user.id"
    case InstallationId => "client.installation.id"
    case HermesSessionId => "hermes.session.id"
    case SessionId => "session.id"
    case LangfuseSessionId => "langfuse.session.id"
    case ConversationId => "gen_ai.conversation.id"
    case Entrypoint => "hermes.entrypoint"
    case RunId => "hermes.run.id"
    case SchemaVersion => "telemetry.schema.version"
    case RequestId => "trace.gateway.request.id"
    case BatchId => "trace.gateway.batch.id"
    case TraceInput => "langfuse.trace.input"
    case TraceOutput => "langfuse.trace.output"
    case ObservationType => "langfuse.observation.type"
    case ObservationInput => "langfuse.observation.input"
    case ObservationOutput => "langfuse.observation.output"
    case ModelName => "langfuse.observation.model.name"
    case UsageDetails => "langfuse.observation.usage_details"
    case UsageCost => "gen_ai.usage.cost"
    case Username => "langfuse.trace.metadata.username"
  }

  /** Length, first, second and last letter tell any two reserved keys apart. */
  function Signature(key: Reserved): (nat, char, char, char) {
    match key
    case PlatformUserId => (16, 'p', 'l', 'd')
    case AccountId => (17, 'a', 'n', 'd')
    case UserId => (7, 'u', 's', 'd')
    case LangfuseUserId => (16, 'l', 'a', 'd')
    case InstallationId => (22, 'c', 'l', 'd')
    case HermesSessionId => (17, 'h', 'e', 'd')
    case SessionId => (10, 's', 'e', 'd')
    case LangfuseSessionId => (19, 'l', 'a', 'd')
    case ConversationId => (22, 'g', 'e', 'd')
    case Entrypoint => (17, 'h', 'e', 't')
    case RunId => (13, 'h', 'e', 'd')
    case SchemaVersion => (24, 't', 'e', 'n')
    case RequestId => (24, 't', 'r', 'd')
    case BatchId => (22, 't', 'r', 'd')
    case TraceInput => (20, 'l', 'a', 't')
    case TraceOutput => (21, 'l', 'a', 't')
    case ObservationType => (25, 'l', 'a', 'e')
    case ObservationInput => (26, 'l', 'a', 't')
    case ObservationOutput => (27, 'l', 'a', 't')
    case ModelName => (31, 'l', 'a', 'e')
    case UsageDetails => (34, 'l', 'a', 's')
    case UsageCost => (17, 'g', 'e', 't')
    case Username => (32, 'l', 'a', 'e')
  }

  predicate HasSignature(name: string, s: (nat, char, char, char)) {
    |name| == s.0 && s.0 >= 2 && name[0] == s.1 && name[1] == s.2 && name[|name| - 1] == s.3
  }

  lemma IdentityNames(key: Reserved)
    requires key in {PlatformUserId, AccountId, UserId, LangfuseUserId, InstallationId, HermesSessionId}
    ensures HasSignature(Name(key), Signature(key))
  {
  }

  lemma SessionNames(key: Reserved)
    requires key in {SessionId, LangfuseSessionId, ConversationId, Entrypoint, RunId, SchemaVersion}
    ensures HasSignature(Name(key), Signature(key))
  {
  }

  lemma TraceNames(key: Reserved)
    requires key in {RequestId, BatchId, TraceInput, TraceOutput, ObservationType, ObservationInput}
    ensures HasSignature(Name(key), Signature(key))
  {
  }

  lemma ObservationNames(key: Reserved)
    requires key in {ObservationOutput, ModelName, UsageDetails, UsageCost, Username}
    ensures HasSignature(Name(key), Signature(key))
  {
  }

  lemma NameHasSignature(key: Reserved)
    ensures HasSignature(Name(key), Signature(key))
  {
    hide Name, Signature, HasSignature;
    match key
    case PlatformUserId | AccountId | UserId | LangfuseUserId | InstallationId | HermesSessionId => IdentityNames(key);
    case SessionId | LangfuseSessionId | ConversationId | Entrypoint | RunId | SchemaVersion => SessionNames(key);
    case RequestId | BatchId | TraceInput | TraceOutput | ObservationType | ObservationInput => TraceNames(key);
    case ObservationOutput | ModelName | UsageDetails | UsageCost | Username => ObservationNames(key);
  }

  lemma NamesAreDistinct(a: Reserved, b: Reserved)
    ensures Name(a) == Name(b) <==> a == b
  {
    NameHasSignature(a);
    NameHasSignature(b);
    hide Name;
  }

  predicate IsReserved(key: string) {
    exists r: Reserved :: Name(r) == key
  }

  // --- Dropping reserved keys in place -------------------------------------

  predicate Kept(attribute: Option<KeyValue>) {
    attribute.Some? && !IsReserved(attribute.value.key)
  }

  /** The unreserved attributes, in order. */
  function Unreserved(attributes: AttributeList): AttributeList {
    if attributes == [] then []
    else
      var last := attributes[|attributes| - 1];
      Unreserved(attributes[..|attributes| - 1]) + (if Kept(last) then [last] else [])
  }

  /** Compacts the kept attributes to the front of the slice they are read from. */
  method CompactUnreserved(clean: array<Option<KeyValue>>) returns (length: nat)
    modifies clean
    ensures length <= clean.Length
    ensures clean[..length] == Unreserved(old(clean[..]))
  {
    hide Kept;
    length := 0;
    ghost var s := clean[..];
    for i := 0 to clean.Length
      invariant length <= i
      invariant forall k :: i <= k < clean.Length ==> clean[k] == s[k]
      invariant clean[..length] == Unreserved(s[..i])
    {
      UnreservedStep(s, i);
      assert clean[i] == s[i];
      ghost var front := clean[..length];
      var attribute := clean[i];
      if Kept(attribute) {
        clean[length] := attribute;
        length := length + 1;
        assert clean[..length] == front + [attribute];
      } else {
        assert clean[..length] == front + [];
      }
    }
    assert s[..clean.Length] == s;
  }

  lemma UnreservedStep(s: AttributeList, i: nat)
    requires i < |s|
    ensures Unreserved(s[..i + 1]) == Unreserved(s[..i]) + (if Kept(s[i]) then [s[i]] else [])
  {
    assert s[..i + 1][..i] == s[..i];
  }

  /** `withoutCanonical`. */
  function WithoutCanonical(codec: Codec, attributes: AttributeList): AttributeList {
    Unreserved(AttributesAtDepth(codec, attributes, 0))
  }

  method DropReserved(codec: Codec, attributes: AttributeList) returns (kept: AttributeList)
    ensures kept == WithoutCanonical(codec, attributes)
  {
    hide AttributesAtDepth, Unreserved;
    var redacted := CleanAttributes(codec, attributes, 0);
    var clean := new Option<KeyValue>[|redacted|](i requires 0 <= i < |redacted| => redacted[i]);
    assert clean[..] == redacted;
    var length := CompactUnreserved(clean);
    kept := clean[..length];
  }

  lemma {:induction false} UnreservedHasNone(attributes: AttributeList)
    ensures forall i :: 0 <= i < |Unreserved(attributes)| ==> Kept(Unreserved(attributes)[i])
  {
    if attributes != [] {
      UnreservedHasNone(attributes[..|attributes| - 1]);
    }
  }

  lemma NoReservedKeyIsLeft(codec: Codec, attributes: AttributeList, key: Reserved)
    ensures Count(WithoutCanonical(codec, attributes), Name(key)) == 0
  {
    var kept := WithoutCanonical(codec, attributes);
    UnreservedHasNone(AttributesAtDepth(codec, attributes, 0));
    forall i | 0 <= i < |kept| && kept[i].Some? ensures kept[i].value.key != Name(key) {
      assert Kept(kept[i]);
    }
    CountAbsent(kept, Name(key));
  }

  // --- The projection for Langfuse -----------------------------------------

  const SCOPE_TYPE := "nemo_relay.scope_type"
  const USER_INPUT := "nemo_relay.start.input.user"
  const ASSISTANT_OUTPUT := "nemo_relay.end.output.assistant"
  const INPUT_CONTENT := "nemo_relay.start.input.content"
  const INPUT := "nemo_relay.start.input"
  const OUTPUT_CHOICES := "nemo_relay.end.output.choices"
  const OUTPUT := "nemo_relay.end.output"
  const MODEL := "nemo_relay.model_name"
  const USAGE := "nemo_relay.end.output.usage"
  const COST := "nemo_relay.end.output.cost_usd"

  /** How payload attributes are rendered as text; rendering a group of attributes may fail. */
  datatype Renderer = Renderer(
    value: Value -> string,
    group: seq<(string, Value)> -> Option<string>,
    modelName: string -> string,
    parse: string -> Option<Json>,
    details: seq<(string, int64)> -> string,
    cost: Value -> Option<Value>)

  /** `renderPayloadValue`: a text as it is, anything else rendered. */
  function PayloadText(r: Renderer, value: Value): string {
    match value
    case Text(text) => text
    case _ => r.value(value)
  }

  /** The attributes under a dotted prefix, without the prefix. */
  function Group(attributes: AttributeList, prefix: string): seq<(string, Value)> {
    if attributes == [] then []
    else
      var a := attributes[0];
      (if a.Some? && HasPrefix(a.value.key, prefix + ".") && |a.value.key| > |prefix| + 1 && a.value.value.Some?
       then [(a.value.key[|prefix| + 1..], a.value.value.value)] else [])
      + Group(attributes[1..], prefix)
  }

  /** `relayPayload`: the attribute itself, else the group of attributes below it. */
  function RelayPayload(r: Renderer, attributes: AttributeList, prefix: string): Option<string> {
    match AttributeValue(attributes, prefix)
    case Some(value) => Some(PayloadText(r, value))
    case None =>
      var group := Group(attributes, prefix);
      if group == [] then None else r.group(group)
  }

  function PreferredRelayPayload(r: Renderer, attributes: AttributeList, preferred: string, fallback: string): Option<string> {
    match AttributeValue(attributes, preferred)
    case Some(value) => Some(PayloadText(r, value))
    case None => RelayPayload(r, attributes, fallback)
  }

  /** An attribute to append if its value could be had. */
  type Candidate = (Reserved, Option<Value>)

  function Wrapped(text: Option<string>): Option<Value> {
    match text case Some(s) => Some(Value.Text(s)) case None => None
  }

  function Present(candidates: seq<Candidate>): seq<(Reserved, Value)> {
    if candidates == [] then []
    else if candidates[0].1.None? then Present(candidates[1..])
    else [(candidates[0].0, candidates[0].1.value)] + Present(candidates[1..])
  }

  /** `relayUsageDetails`: the reported usage, split into parts and rendered. */
  function RelayUsage(r: Renderer, attributes: AttributeList): Option<string> {
    match RelayPayload(r, attributes, USAGE)
    case None => None
    case Some(raw) =>
      match r.parse(raw)
      case None => None
      case Some(usage) =>
        match TokenUsage.Breakdown(usage)
        case None => None
        case Some(details) => Some(r.details(TokenUsage.Fields(details)))
  }

  function RelayCost(r: Renderer, attributes: AttributeList): Option<Value> {
    match AttributeValue(attributes, COST)
    case Some(value) => r.cost(value)
    case None => None
  }

  function RelayModel(r: Renderer, attributes: AttributeList): Option<string> {
    match StringValue(attributes, MODEL)
    case Some(model) => Some(r.modelName(model))
    case None => None
  }

  function TurnCandidates(attributes: AttributeList): seq<Candidate> {
    var input := Wrapped(StringValue(attributes, USER_INPUT));
    var output := Wrapped(StringValue(attributes, ASSISTANT_OUTPUT));
    [(ObservationType, Some(Value.Text("span"))), (ObservationInput, input), (TraceInput, input),
     (ObservationOutput, output), (TraceOutput, output)]
  }

  function GenerationCandidates(r: Renderer, attributes: AttributeList): seq<Candidate> {
    [(ObservationType, Some(Value.Text("generation"))),
     (ObservationInput, Wrapped(PreferredRelayPayload(r, attributes, INPUT_CONTENT, INPUT))),
     (ObservationOutput, Wrapped(PreferredRelayPayload(r, attributes, OUTPUT_CHOICES, OUTPUT))),
     (ModelName, Wrapped(RelayModel(r, attributes))),
     (UsageDetails, Wrapped(RelayUsage(r, attributes))),
     (UsageCost, RelayCost(r, attributes))]
  }

  function ToolCandidates(r: Renderer, attributes: AttributeList): seq<Candidate> {
    [(ObservationType, Some(Value.Text("span"))),
     (ObservationInput, Wrapped(RelayPayload(r, attributes, INPUT))),
     (ObservationOutput, Wrapped(RelayPayload(r, attributes, OUTPUT)))]
  }

  /** What `projectRelayForLangfuse` looks for, by kind of span. */
  function Candidates(r: Renderer, spanName: string, attributes: AttributeList): seq<Candidate> {
    if spanName == "hermes.turn" then TurnCandidates(attributes)
    else match StringValue(attributes, SCOPE_TYPE)
      case Some("llm") => GenerationCandidates(r, attributes)
      case Some("tool") => ToolCandidates(r, attributes)
      case _ => []
  }

  function Projection(r: Renderer, spanName: string, attributes: AttributeList): seq<(Reserved, Value)> {
    Present(Candidates(r, spanName, attributes))
  }

  function Rendered(pairs: seq<(Reserved, Value)>): AttributeList {
    if pairs == [] then [] else [Attribute(Name(pairs[0].0), pairs[0].1)] + Rendered(pairs[1..])
  }

  function Occurrences(pairs: seq<(Reserved, Value)>, key: Reserved): nat {
    if pairs == [] then 0 else (if pairs[0].0 == key then 1 else 0) + Occurrences(pairs[1..], key)
  }

  lemma {:induction false} CountRendered(pairs: seq<(Reserved, Value)>, key: Reserved)
    ensures Count(Rendered(pairs), Name(key)) == Occurrences(pairs, key)
  {
    if pairs != [] {
      NamesAreDistinct(pairs[0].0, key);
      CountRendered(pairs[1..], key);
      assert Rendered(pairs)[1..] == Rendered(pairs[1..]);
      hide Name;
    }
  }

  lemma {:induction false} GroupConcat(a: AttributeList, b: AttributeList, prefix: string)
    ensures Group(a + b, prefix) == Group(a, prefix) + Group(b, prefix)
  {
    if a == [] {
      assert a + b == b;
    } else {
      assert (a + b)[1..] == a[1..] + b;
      GroupConcat(a[1..], b, prefix);
    }
  }

  lemma {:induction false} RenderedHasOwnNames(pairs: seq<(Reserved, Value)>)
    ensures forall i :: 0 <= i < |Rendered(pairs)| ==>
      Rendered(pairs)[i].Some? && Rendered(pairs)[i].value.key != "" && Rendered(pairs)[i].value.key[0] != 'n'
  {
    if pairs != [] {
      RenderedHasOwnNames(pairs[1..]);
      NameHasSignature(pairs[0].0);
      hide Name;
    }
  }

  lemma {:induction false} GroupOfOwnNames(list: AttributeList, prefix: string)
    requires prefix != "" && prefix[0] == 'n'
    requires forall i :: 0 <= i < |list| ==> list[i].Some? && list[i].value.key != "" && list[i].value.key[0] != 'n'
    ensures Group(list, prefix) == []
  {
    if list != [] {
      assert (prefix + ".")[0] == 'n';
      GroupOfOwnNames(list[1..], prefix);
    }
  }

  /**
   The projection appends while it reads; what it appends is never read back,
   because every key it looks for starts with the relay's own name.
   */
  lemma AppendedIsNotReadBack(r: Renderer, attributes: AttributeList, pairs: seq<(Reserved, Value)>, key: string)
    requires key != "" && key[0] == 'n'
    ensures AttributeValue(attributes + Rendered(pairs), key) == AttributeValue(attributes, key)
    ensures RelayPayload(r, attributes + Rendered(pairs), key) == RelayPayload(r, attributes, key)
  {
    var appended := Rendered(pairs);
    RenderedHasOwnNames(pairs);
    hide Rendered, AttributeValue, Group;
    ValueBefore(attributes, appended, key);
    GroupConcat(attributes, appended, key);
    GroupOfOwnNames(appended, key);
    assert Group(attributes, key) + [] == Group(attributes, key);
  }

  /** The projection reads the same off both lists. */
  ghost predicate ReadsTheSame(r: Renderer, a: AttributeList, b: AttributeList) {
    && StringValue(b, SCOPE_TYPE) == StringValue(a, SCOPE_TYPE)
    && StringValue(b, USER_INPUT) == StringValue(a, USER_INPUT)
    && StringValue(b, ASSISTANT_OUTPUT) == StringValue(a, ASSISTANT_OUTPUT)
    && PreferredRelayPayload(r, b, INPUT_CONTENT, INPUT) == PreferredRelayPayload(r, a, INPUT_CONTENT, INPUT)
    && PreferredRelayPayload(r, b, OUTPUT_CHOICES, OUTPUT) == PreferredRelayPayload(r, a, OUTPUT_CHOICES, OUTPUT)
    && RelayPayload(r, b, INPUT) == RelayPayload(r, a, INPUT)
    && RelayPayload(r, b, OUTPUT) == RelayPayload(r, a, OUTPUT)
    && RelayModel(r, b) == RelayModel(r, a)
    && RelayUsage(r, b) == RelayUsage(r, a)
    && RelayCost(r, b) == RelayCost(r, a)
  }

  lemma AppendedReadsTheSame(r: Renderer, attributes: AttributeList, pairs: seq<(Reserved, Value)>)
    ensures ReadsTheSame(r, attributes, attributes + Rendered(pairs))
  {
    var longer := attributes + Rendered(pairs);
    AppendedTexts(r, attributes, pairs);
    AppendedInputs(r, attributes, pairs);
    AppendedOutputs(r, attributes, pairs);
    AppendedAccounting(r, attributes, pairs);
    hide StringValue, RelayPayload, PreferredRelayPayload, RelayModel, RelayUsage, RelayCost, Rendered;
  }

  lemma AppendedTexts(r: Renderer, attributes: AttributeList, pairs: seq<(Reserved, Value)>)
    ensures var longer := attributes + Rendered(pairs);
      && StringValue(longer, SCOPE_TYPE) == StringValue(attributes, SCOPE_TYPE)
      && StringValue(longer, USER_INPUT) == StringValue(attributes, USER_INPUT)
      && StringValue(longer, ASSISTANT_OUTPUT) == StringValue(attributes, ASSISTANT_OUTPUT)
  {
    hide AttributeValue, RelayPayload, Rendered;
    AppendedIsNotReadBack(r, attributes, pairs, SCOPE_TYPE);
    AppendedIsNotReadBack(r, attributes, pairs, USER_INPUT);
    AppendedIsNotReadBack(r, attributes, pairs, ASSISTANT_OUTPUT);
  }

  lemma AppendedInputs(r: Renderer, attributes: AttributeList, pairs: seq<(Reserved, Value)>)
    ensures var longer := attributes + Rendered(pairs);
      && PreferredRelayPayload(r, longer, INPUT_CONTENT, INPUT) == PreferredRelayPayload(r, attributes, INPUT_CONTENT, INPUT)
      && RelayPayload(r, longer, INPUT) == RelayPayload(r, attributes, INPUT)
  {
    hide AttributeValue, RelayPayload, Rendered;
    AppendedIsNotReadBack(r, attributes, pairs, INPUT_CONTENT);
    AppendedIsNotReadBack(r, attributes, pairs, INPUT);
  }

  lemma AppendedOutputs(r: Renderer, attributes: AttributeList, pairs: seq<(Reserved, Value)>)
    ensures var longer := attributes + Rendered(pairs);
      && PreferredRelayPayload(r, longer, OUTPUT_CHOICES, OUTPUT) == PreferredRelayPayload(r, attributes, OUTPUT_CHOICES, OUTPUT)
      && RelayPayload(r, longer, OUTPUT) == RelayPayload(r, attributes, OUTPUT)
  {
    hide AttributeValue, RelayPayload, Rendered;
    AppendedIsNotReadBack(r, attributes, pairs, OUTPUT_CHOICES);
    AppendedIsNotReadBack(r, attributes, pairs, OUTPUT);
  }

  lemma AppendedAccounting(r: Renderer, attributes: AttributeList, pairs: seq<(Reserved, Value)>)
    ensures var longer := attributes + Rendered(pairs);
      && RelayModel(r, longer) == RelayModel(r, attributes)
      && RelayUsage(r, longer) == RelayUsage(r, attributes)
      && RelayCost(r, longer) == RelayCost(r, attributes)
  {
    hide AttributeValue, RelayPayload, Rendered;
    AppendedIsNotReadBack(r, attributes, pairs, MODEL);
    AppendedIsNotReadBack(r, attributes, pairs, USAGE);
    AppendedIsNotReadBack(r, attributes, pairs, COST);
  }

  lemma SameReadsSameCandidates(r: Renderer, spanName: string, a: AttributeList, b: AttributeList)
    requires ReadsTheSame(r, a, b)
    ensures Candidates(r, spanName, a) == Candidates(r, spanName, b)
  {
    hide StringValue, PreferredRelayPayload, RelayPayload, RelayModel, RelayUsage, RelayCost;
  }

  lemma {:induction false} PresentConcat(a: seq<Candidate>, key: Reserved, value: Option<Value>)
    ensures Rendered(Present(a + [(key, value)]))
      == Rendered(Present(a)) + (if value.Some? then [Attribute(Name(key), value.value)] else [])
  {
    hide Name;
    var last := [(key, value)];
    if a == [] {
      assert a + last == last && last[1..] == [];
    } else {
      assert (a + last)[0] == a[0] && (a + last)[1..] == a[1..] + last;
      PresentConcat(a[1..], key, value);
      if a[0].1.Some? {
        assert Present(a)[1..] == Present(a[1..]) && Present(a + last)[1..] == Present(a[1..] + last);
      }
    }
  }

  /** Appends the value, if there is one; what the projection reads stays what it was in `base`. */
  method AppendNext(r: Renderer, ghost base: AttributeList, list: AttributeList, ghost done: seq<Candidate>,
                    key: Reserved, value: Option<Value>)
    returns (out: AttributeList, ghost next: seq<Candidate>)
    requires list == base + Rendered(Present(done))
    ensures next == done + [(key, value)] && out == base + Rendered(Present(next))
    ensures ReadsTheSame(r, base, out)
  {
    hide *;
    next := done + [(key, value)];
    PresentConcat(done, key, value);
    AppendedReadsTheSame(r, base, Present(next));
    if value.Some? {
      out := list + [Attribute(Name(key), value.value)];
    } else {
      out := list;
    }
  }

  method ProjectTurn(r: Renderer, attributes: AttributeList) returns (out: AttributeList)
    ensures out == attributes + Rendered(Present(TurnCandidates(attributes)))
  {
    hide StringValue, RelayPayload, PreferredRelayPayload, RelayModel, RelayUsage, RelayCost, Name;
    out := attributes;
    ghost var done: seq<Candidate> := [];
    assert attributes + Rendered(Present(done)) == attributes;
    hide Present, Rendered;
    out, done := AppendNext(r, attributes, out, done, ObservationType, Some(Value.Text("span")));
    var input := Wrapped(StringValue(out, USER_INPUT));
    out, done := AppendNext(r, attributes, out, done, ObservationInput, input);
    out, done := AppendNext(r, attributes, out, done, TraceInput, input);
    var output := Wrapped(StringValue(out, ASSISTANT_OUTPUT));
    out, done := AppendNext(r, attributes, out, done, ObservationOutput, output);
    out, done := AppendNext(r, attributes, out, done, TraceOutput, output);
    assert done == TurnCandidates(attributes);
  }

  method ProjectGeneration(r: Renderer, attributes: AttributeList) returns (out: AttributeList)
    ensures out == attributes + Rendered(Present(GenerationCandidates(r, attributes)))
  {
    hide StringValue, RelayPayload, PreferredRelayPayload, RelayModel, RelayUsage, RelayCost, Name;
    out := attributes;
    ghost var done: seq<Candidate> := [];
    assert attributes + Rendered(Present(done)) == attributes;
    hide Present, Rendered;
    out, done := AppendNext(r, attributes, out, done, ObservationType, Some(Value.Text("generation")));
    out, done := AppendNext(r, attributes, out, done, ObservationInput, Wrapped(PreferredRelayPayload(r, out, INPUT_CONTENT, INPUT)));
    out, done := AppendNext(r, attributes, out, done, ObservationOutput, Wrapped(PreferredRelayPayload(r, out, OUTPUT_CHOICES, OUTPUT)));
    out, done := AppendNext(r, attributes, out, done, ModelName, Wrapped(RelayModel(r, out)));
    out, done := AppendNext(r, attributes, out, done, UsageDetails, Wrapped(RelayUsage(r, out)));
    out, done := AppendNext(r, attributes, out, done, UsageCost, RelayCost(r, out));
    assert done == GenerationCandidates(r, attributes);
  }

  method ProjectTool(r: Renderer, attributes: AttributeList) returns (out: AttributeList)
    ensures out == attributes + Rendered(Present(ToolCandidates(r, attributes)))
  {
    hide StringValue, RelayPayload, PreferredRelayPayload, RelayModel, RelayUsage, RelayCost, Name;
    out := attributes;
    ghost var done: seq<Candidate> := [];
    assert attributes + Rendered(Present(done)) == attributes;
    hide Present, Rendered;
    out, done := AppendNext(r, attributes, out, done, ObservationType, Some(Value.Text("span")));
    out, done := AppendNext(r, attributes, out, done, ObservationInput, Wrapped(RelayPayload(r, out, INPUT)));
    out, done := AppendNext(r, attributes, out, done, ObservationOutput, Wrapped(RelayPayload(r, out, OUTPUT)));
    assert done == ToolCandidates(r, attributes);
  }

  /** `projectRelayForLangfuse`: every value is read off the list as it has grown by then. */
  method ProjectRelay(r: Renderer, spanName: string, attributes: AttributeList) returns (out: AttributeList)
    ensures out == attributes + Rendered(Projection(r, spanName, attributes))
  {
    hide TurnCandidates, GenerationCandidates, ToolCandidates, StringValue;
    var scopeType := StringValue(attributes, SCOPE_TYPE);
    if spanName == "hermes.turn" {
      out := ProjectTurn(r, attributes);
    } else if scopeType == Some("llm") {
      out := ProjectGeneration(r, attributes);
    } else if scopeType == Some("tool") {
      out := ProjectTool(r, attributes);
    } else {
      out := attributes + [];
    }
  }

  /** Keys in strictly ascending rank occur at most once. */
  function Rank(key: Reserved): nat {
    match key
    case ObservationType => 1
    case ObservationInput => 2
    case TraceInput => 3
    case ObservationOutput => 4
    case TraceOutput => 5
    case ModelName => 6
    case UsageDetails => 7
    case UsageCost => 8
    case _ => 0
  }

  ghost predicate RanksAscend(candidates: seq<Candidate>) {
    && (forall i :: 0 <= i < |candidates| ==> Rank(candidates[i].0) > 0)
    && (forall i, j :: 0 <= i < j < |candidates| ==> Rank(candidates[i].0) < Rank(candidates[j].0))
  }

  lemma {:induction false} AscendingOccurOnce(candidates: seq<Candidate>, key: Reserved)
    requires RanksAscend(candidates)
    ensures Occurrences(Present(candidates), key) <= 1
    ensures Rank(key) == 0 ==> Occurrences(Present(candidates), key) == 0
  {
    if candidates != [] {
      AscendingOccurOnce(candidates[1..], key);
      if candidates[0].1.Some? { assert Present(candidates)[1..] == Present(candidates[1..]); }
      if candidates[0].0 == key { NoneAbove(candidates[1..], key); }
    }
  }

  lemma {:induction false} NoneAbove(candidates: seq<Candidate>, key: Reserved)
    requires forall i :: 0 <= i < |candidates| ==> Rank(candidates[i].0) > Rank(key)
    ensures Occurrences(Present(candidates), key) == 0
  {
    if candidates != [] {
      NoneAbove(candidates[1..], key);
      if candidates[0].1.Some? { assert Present(candidates)[1..] == Present(candidates[1..]); }
    }
  }

  lemma CandidatesAscend(r: Renderer, spanName: string, attributes: AttributeList)
    ensures RanksAscend(Candidates(r, spanName, attributes))
  {
    hide StringValue, RelayPayload, PreferredRelayPayload, RelayUsage, RelayCost, RelayModel;
  }

  // --- The canonical request -----------------------------------------------

  datatype Principal = Principal(accountId: string, userId: string, username: string, installationId: string)

  datatype Headers = Headers(sessionId: string, entrypoint: string, runId: string, schemaVersion: string)

  predicate ValidIdentity(p: Principal, h: Headers, batchId: string) {
    && p.accountId != "" && p.userId != "" && p.username != "" && p.installationId != ""
    && h.sessionId != "" && h.entrypoint != "" && h.runId != "" && h.schemaVersion == "1" && batchId != ""
  }

  /** The trusted value of each identity key. */
  function Trusted(key: Reserved, p: Principal, h: Headers, batchId: string): string {
    match key
    case PlatformUserId => p.userId
    case AccountId => p.accountId
    case UserId | LangfuseUserId | Username => p.username
    case InstallationId => p.installationId
    case HermesSessionId | SessionId | LangfuseSessionId | ConversationId => h.sessionId
    case Entrypoint => h.entrypoint
    case RunId => h.runId
    case SchemaVersion => "1"
    case BatchId => batchId
    case _ => ""
  }

  const RESOURCE_KEYS: seq<Reserved> := [
    PlatformUserId, AccountId, UserId, LangfuseUserId, Username, InstallationId, HermesSessionId,
    SessionId, LangfuseSessionId, ConversationId, Entrypoint, RunId, SchemaVersion, BatchId]

  const SPAN_KEYS: seq<Reserved> := [UserId, LangfuseUserId, Username, SessionId, LangfuseSessionId, ConversationId]

  /** The identity attributes for `keys`, in order. */
  function Identity(keys: seq<Reserved>, p: Principal, h: Headers, batchId: string): seq<(Reserved, Value)> {
    if keys == [] then []
    else [(keys[0], Value.Text(Trusted(keys[0], p, h, batchId)))] + Identity(keys[1..], p, h, batchId)
  }

  function CanonicalResource(codec: Codec, attributes: AttributeList, p: Principal, h: Headers, batchId: string): AttributeList {
    WithoutCanonical(codec, attributes) + Rendered(Identity(RESOURCE_KEYS, p, h, batchId))
  }

  function CanonicalSpan(codec: Codec, r: Renderer, name: string, attributes: AttributeList, p: Principal, h: Headers, batchId: string): AttributeList {
    var clean := WithoutCanonical(codec, attributes);
    clean + Rendered(Projection(r, name, clean)) + Rendered(Identity(SPAN_KEYS, p, h, batchId))
  }

  lemma {:induction false} ValueBehind(front: AttributeList, rest: AttributeList, key: string)
    requires Count(front, key) == 0
    ensures AttributeValue(front + rest, key) == AttributeValue(rest, key)
  {
    if front == [] {
      assert front + rest == rest;
    } else {
      assert (front + rest)[1..] == front[1..] + rest;
      ValueBehind(front[1..], rest, key);
    }
  }

  ghost predicate DistinctNames(keys: seq<Reserved>) {
    forall i, j :: 0 <= i < j < |keys| ==> keys[i] != keys[j]
  }

  lemma {:induction false} IdentityOccurs(keys: seq<Reserved>, p: Principal, h: Headers, batchId: string, key: Reserved)
    requires DistinctNames(keys)
    ensures Occurrences(Identity(keys, p, h, batchId), key) == if key in keys then 1 else 0
  {
    if keys != [] {
      assert keys == [keys[0]] + keys[1..];
      assert Identity(keys, p, h, batchId)[1..] == Identity(keys[1..], p, h, batchId);
      IdentityOccurs(keys[1..], p, h, batchId, key);
      if keys[0] == key {
        assert key !in keys[1..];
      }
    }
  }

  lemma {:induction false} IdentityValue(keys: seq<Reserved>, p: Principal, h: Headers, batchId: string, key: Reserved)
    requires key in keys
    ensures AttributeValue(Rendered(Identity(keys, p, h, batchId)), Name(key)) == Some(Value.Text(Trusted(key, p, h, batchId)))
  {
    hide Name, Trusted;
    var pairs := Identity(keys, p, h, batchId);
    NamesAreDistinct(keys[0], key);
    assert pairs[1..] == Identity(keys[1..], p, h, batchId);
    assert Rendered(pairs)[1..] == Rendered(pairs[1..]);
    if keys[0] != key {
      assert keys == [keys[0]] + keys[1..];
      IdentityValue(keys[1..], p, h, batchId, key);
    }
  }

  /** Where a key stands among the identity keys of a resource and of a span. */
  function Position(key: Reserved): (int, int) {
    match key
    case PlatformUserId => (0, -1)
    case AccountId => (1, -1)
    case UserId => (2, 0)
    case LangfuseUserId => (3, 1)
    case Username => (4, 2)
    case InstallationId => (5, -1)
    case HermesSessionId => (6, -1)
    case SessionId => (7, 3)
    case LangfuseSessionId => (8, 4)
    case ConversationId => (9, 5)
    case Entrypoint => (10, -1)
    case RunId => (11, -1)
    case SchemaVersion => (12, -1)
    case BatchId => (13, -1)
    case _ => (-1, -1)
  }

  lemma IdentityKeysAreDistinct()
    ensures DistinctNames(RESOURCE_KEYS) && DistinctNames(SPAN_KEYS)
  {
    assert forall i :: 0 <= i < |RESOURCE_KEYS| ==> Position(RESOURCE_KEYS[i]).0 == i;
    assert forall i :: 0 <= i < |SPAN_KEYS| ==> Position(SPAN_KEYS[i]).1 == i;
  }

  /** `key` occurs in `list` exactly once, with this text. */
  ghost predicate OnceWith(list: AttributeList, key: Reserved, text: string) {
    Count(list, Name(key)) == 1 && StringValue(list, Name(key)) == Some(text)
  }

  /** A list without `key` before the identity block: the block alone decides. */
  lemma IdentityDecides(front: AttributeList, keys: seq<Reserved>, p: Principal, h: Headers, batchId: string, key: Reserved)
    requires DistinctNames(keys)
    ensures var list := front + Rendered(Identity(keys, p, h, batchId));
      && Count(list, Name(key)) == Count(front, Name(key)) + (if key in keys then 1 else 0)
      && (key in keys && Count(front, Name(key)) == 0 ==> OnceWith(list, key, Trusted(key, p, h, batchId)))
  {
    hide Name, Trusted;
    var pairs := Identity(keys, p, h, batchId);
    CountConcat(front, Rendered(pairs), Name(key));
    CountRendered(pairs, key);
    IdentityOccurs(keys, p, h, batchId, key);
    if key in keys && Count(front, Name(key)) == 0 {
      ValueBehind(front, Rendered(pairs), Name(key));
      IdentityValue(keys, p, h, batchId, key);
    }
  }

  /** On a resource every identity key occurs exactly once, trusted; no other reserved key occurs at all. */
  lemma ResourceIdentityIsTrusted(codec: Codec, attributes: AttributeList, p: Principal, h: Headers, batchId: string, key: Reserved)
    ensures var list := CanonicalResource(codec, attributes, p, h, batchId);
      if key in RESOURCE_KEYS then OnceWith(list, key, Trusted(key, p, h, batchId)) else Count(list, Name(key)) == 0
  {
    hide Name, WithoutCanonical, Trusted;
    NoReservedKeyIsLeft(codec, attributes, key);
    IdentityKeysAreDistinct();
    IdentityDecides(WithoutCanonical(codec, attributes), RESOURCE_KEYS, p, h, batchId, key);
  }

  /** The keys the projection writes; a client's value under any of them is dropped first. */
  predicate IsProjected(key: Reserved) {
    Rank(key) > 0
  }

  lemma ProjectionOccurs(r: Renderer, spanName: string, attributes: AttributeList, key: Reserved)
    ensures var projection := Projection(r, spanName, attributes);
      && Count(Rendered(projection), Name(key)) == Occurrences(projection, key)
      && Occurrences(projection, key) <= (if IsProjected(key) then 1 else 0)
    ensures key in SPAN_KEYS ==> !IsProjected(key)
  {
    CandidatesAscend(r, spanName, attributes);
    hide Candidates, Name;
    AscendingOccurOnce(Candidates(r, spanName, attributes), key);
    CountRendered(Projection(r, spanName, attributes), key);
  }

  /** The value under a key is that of its first pair. */
  lemma {:induction false} RenderedValue(pairs: seq<(Reserved, Value)>, key: Reserved, value: Value)
    requires (key, value) in pairs && Occurrences(pairs, key) <= 1
    ensures AttributeValue(Rendered(pairs), Name(key)) == Some(value)
  {
    hide Name;
    NamesAreDistinct(pairs[0].0, key);
    RenderedHead(pairs, Name(key));
    assert pairs == [pairs[0]] + pairs[1..];
    assert Occurrences(pairs, key) == (if pairs[0].0 == key then 1 else 0) + Occurrences(pairs[1..], key);
    hide Rendered, Occurrences, AttributeValue;
    if pairs[0].0 == key {
      if (key, value) in pairs[1..] { PairOccurs(pairs[1..], key, value); }
    } else {
      RenderedValue(pairs[1..], key, value);
    }
  }

  lemma RenderedHead(pairs: seq<(Reserved, Value)>, name: string)
    requires pairs != []
    ensures AttributeValue(Rendered(pairs), name)
      == if Name(pairs[0].0) == name then Some(pairs[0].1) else AttributeValue(Rendered(pairs[1..]), name)
  {
    hide Name;
    assert Rendered(pairs)[1..] == Rendered(pairs[1..]);
  }

  lemma {:induction false} PairOccurs(pairs: seq<(Reserved, Value)>, key: Reserved, value: Value)
    requires (key, value) in pairs
    ensures Occurrences(pairs, key) >= 1
  {
    assert pairs == [pairs[0]] + pairs[1..];
    if pairs[0].0 != key { PairOccurs(pairs[1..], key, value); }
  }

  /** What follows a list that already holds the key does not matter. */
  lemma {:induction false} ValueInFront(front: AttributeList, rest: AttributeList, key: string)
    requires Count(front, key) > 0
    ensures AttributeValue(front + rest, key) == AttributeValue(front, key)
  {
    assert (front + rest)[1..] == front[1..] + rest;
    if !(front[0].Some? && front[0].value.key == key) { ValueInFront(front[1..], rest, key); }
  }

  /** The reserved attributes of a canonical span, projected or trusted. */
  ghost predicate SpanIsOwn(r: Renderer, name: string, list: AttributeList, p: Principal, h: Headers, batchId: string, key: Reserved) {
    if key in SPAN_KEYS then OnceWith(list, key, Trusted(key, p, h, batchId))
    else
      var projection := Projection(r, name, list);
      && Count(list, Name(key)) == Occurrences(projection, key) <= (if IsProjected(key) then 1 else 0)
      && forall value :: (key, value) in projection ==> AttributeValue(list, Name(key)) == Some(value)
  }

  lemma ProjectedValue(front: AttributeList, pairs: seq<(Reserved, Value)>, rest: AttributeList, key: Reserved, value: Value)
    requires Count(front, Name(key)) == 0 && (key, value) in pairs && Occurrences(pairs, key) <= 1
    ensures AttributeValue(front + Rendered(pairs) + rest, Name(key)) == Some(value)
  {
    hide Name;
    PairOccurs(pairs, key, value);
    CountRendered(pairs, key);
    CountConcat(front, Rendered(pairs), Name(key));
    ValueInFront(front + Rendered(pairs), rest, Name(key));
    ValueBehind(front, Rendered(pairs), Name(key));
    RenderedValue(pairs, key, value);
  }

  lemma CanonicalProjection(codec: Codec, r: Renderer, name: string, attributes: AttributeList, p: Principal, h: Headers, batchId: string)
    ensures Projection(r, name, CanonicalSpan(codec, r, name, attributes, p, h, batchId))
      == Projection(r, name, WithoutCanonical(codec, attributes))
  {
    var clean := WithoutCanonical(codec, attributes);
    var pairs := Projection(r, name, clean);
    hide Candidates, WithoutCanonical, Rendered, ReadsTheSame;
    AppendedReadsTheSame(r, clean, pairs);
    AppendedReadsTheSame(r, clean + Rendered(pairs), Identity(SPAN_KEYS, p, h, batchId));
    SameReadsSameCandidates(r, name, clean, clean + Rendered(pairs));
    SameReadsSameCandidates(r, name, clean + Rendered(pairs), clean + Rendered(pairs) + Rendered(Identity(SPAN_KEYS, p, h, batchId)));
  }

  /**
   On a span the six identity keys occur exactly once, trusted. A key the
   projection writes occurs exactly as often as the projection says, with its
   value; every other reserved key is absent. Nothing of the client's is left.
   */
  lemma SpanIdentityIsTrusted(codec: Codec, r: Renderer, name: string, attributes: AttributeList, p: Principal, h: Headers,
                              batchId: string, key: Reserved)
    ensures SpanIsOwn(r, name, CanonicalSpan(codec, r, name, attributes, p, h, batchId), p, h, batchId, key)
  {
    hide Name, WithoutCanonical, Projection, Trusted, SPAN_KEYS, Rank;
    var front := WithoutCanonical(codec, attributes);
    var pairs := Projection(r, name, front);
    CanonicalProjection(codec, r, name, attributes, p, h, batchId);
    NoReservedKeyIsLeft(codec, attributes, key);
    ProjectionOccurs(r, name, front, key);
    CountConcat(front, Rendered(pairs), Name(key));
    IdentityKeysAreDistinct();
    IdentityDecides(front + Rendered(pairs), SPAN_KEYS, p, h, batchId, key);
    forall value | (key, value) in pairs
      ensures AttributeValue(CanonicalSpan(codec, r, name, attributes, p, h, batchId), Name(key)) == Some(value)
    {
      ProjectedValue(front, pairs, Rendered(Identity(SPAN_KEYS, p, h, batchId)), key, value);
    }
  }
}
