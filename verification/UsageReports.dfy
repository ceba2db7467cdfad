/**
 How a usage report becomes the exported breakdown (canonicalize.go,
 `relayUsageDetails`), in terms of the fields an upstream writes: every dialect's
 field by name, which of them wins, and what is taken out of what.
 */
module UsageReports {
  import opened Prelude
  import opened Json
  import opened TokenUsage
  import opened Admission
  import opened Canonical
  import opened Generations
  import opened Export
  import Text

  /** At `path`, below nested objects, the report holds the whole number `n`, which is not negative. */
  predicate Reports(value: Json, path: seq<string>, n: int64)
    decreases |path|
  {
    if path == [] then value.Number? && Text.ParseInt64(value.literal) == Some(n) && n >= 0
    else value.Obj? && Lookup(value.fields, path[0]).Some? && Reports(Lookup(value.fields, path[0]).value, path[1..], n)
  }

  ghost predicate Missing(usage: Json, path: seq<string>) {
    forall n :: !Reports(usage, path, n)
  }

  /** `count` is what the first of the paths that holds a count holds. */
  ghost predicate First(usage: Json, paths: seq<seq<string>>, count: Option<int64>) {
    match count
    case Some(n) => exists i :: 0 <= i < |paths| && Reports(usage, paths[i], n) && forall j :: 0 <= j < i ==> Missing(usage, paths[j])
    case None => forall i :: 0 <= i < |paths| ==> Missing(usage, paths[i])
  }

  lemma {:induction false} CountIsReported(value: Json, path: seq<string>, n: int64)
    ensures TokenCountAt(value, path) == Some(n) <==> Reports(value, path, n)
    decreases |path|
  {
    if path != [] && value.Obj? && Lookup(value.fields, path[0]).Some? {
      CountIsReported(Lookup(value.fields, path[0]).value, path[1..], n);
    }
  }

  lemma CountIsMissing(value: Json, path: seq<string>)
    ensures TokenCountAt(value, path).None? <==> Missing(value, path)
  {
    hide TokenCountAt, Reports;
    forall n ensures TokenCountAt(value, path) == Some(n) <==> Reports(value, path, n) {
      CountIsReported(value, path, n);
    }
    assert TokenCountAt(value, path).Some? ==> Reports(value, path, TokenCountAt(value, path).value);
  }

  /** There is exactly one such count. */
  lemma {:induction false} FirstIsCount(usage: Json, paths: seq<seq<string>>, count: Option<int64>)
    ensures First(usage, paths, count) <==> count == FirstTokenCount(usage, paths)
    decreases |paths|
  {
    hide TokenCountAt, Reports, Missing;
    if paths != [] {
      FirstIsCount(usage, paths[1..], count);
      CountIsMissing(usage, paths[0]);
      if count.Some? { CountIsReported(usage, paths[0], count.value); }
      FirstStep(usage, paths, count);
    }
  }

  lemma FirstStep(usage: Json, paths: seq<seq<string>>, count: Option<int64>)
    requires paths != []
    ensures First(usage, paths, count) <==>
      (count.Some? && Reports(usage, paths[0], count.value)) || (Missing(usage, paths[0]) && First(usage, paths[1..], count))
  {
    hide Reports;
    assert paths[1..] == paths[1..];
    if count.Some? && First(usage, paths, count) {
      var i :| 0 <= i < |paths| && Reports(usage, paths[i], count.value) && forall j :: 0 <= j < i ==> Missing(usage, paths[j]);
      if i > 0 { assert Reports(usage, paths[1..][i - 1], count.value); }
    }
    if count.Some? && Missing(usage, paths[0]) && First(usage, paths[1..], count) {
      var i :| 0 <= i < |paths[1..]| && Reports(usage, paths[1..][i], count.value)
        && forall j :: 0 <= j < i ==> Missing(usage, paths[1..][j]);
      assert Reports(usage, paths[i + 1], count.value);
    }
  }

  ghost predicate InputReported(usage: Json, n: Option<int64>) {
    First(usage, [["prompt_tokens"], ["input_tokens"]], n)
  }

  ghost predicate OutputReported(usage: Json, n: Option<int64>) {
    First(usage, [["completion_tokens"], ["output_tokens"]], n)
  }

  ghost predicate TotalReported(usage: Json, n: Option<int64>) {
    First(usage, [["total_tokens"], ["total"]], n)
  }

  ghost predicate CachedReported(usage: Json, n: Option<int64>) {
    First(usage, [["prompt_tokens_details", "cached_tokens"], ["input_tokens_details", "cached_tokens"],
                  ["cache_read_input_tokens"], ["cache_read_tokens"]], n)
  }

  ghost predicate CreatedReported(usage: Json, n: Option<int64>) {
    First(usage, [["prompt_tokens_details", "cache_creation_tokens"], ["input_tokens_details", "cache_creation_tokens"],
                  ["cache_creation_input_tokens"], ["cache_write_tokens"]], n)
  }

  ghost predicate ReasoningReported(usage: Json, n: Option<int64>) {
    First(usage, [["completion_tokens_details", "reasoning_tokens"], ["output_tokens_details", "reasoning_tokens"],
                  ["reasoning_tokens"]], n)
  }

  /** The dialects whose input count includes the cached tokens. */
  ghost predicate CacheIsIncluded(usage: Json) {
    || !Missing(usage, ["prompt_tokens"])
    || !Missing(usage, ["prompt_tokens_details", "cached_tokens"]) || !Missing(usage, ["input_tokens_details", "cached_tokens"])
  }

  function Amount(count: Option<int64>): int {
    match count case Some(n) => n as int case None => 0
  }

  function SumShown(details: map<Part, int64>): int {
    Value(details, Input) + Value(details, Output) + Value(details, InputCached) + Value(details, InputCacheCreation)
    + Value(details, OutputReasoning)
  }

  /** A part of the breakdown is there exactly if it was reported, with this value. */
  ghost predicate Shows(details: map<Part, int64>, part: Part, reported: bool, value: int) {
    (part in details <==> reported) && (reported ==> details[part] as int == value)
  }

  ghost predicate SplitOf(details: map<Part, int64>, input: Option<int64>, output: Option<int64>, total: Option<int64>,
                          cached: Option<int64>, created: Option<int64>, reasoning: Option<int64>, included: bool) {
    && Shows(details, Input, input.Some?, if included then Max(0, Amount(input) - Amount(cached) - Amount(created)) else Amount(input))
    && Shows(details, Output, output.Some?, Max(0, Amount(output) - Amount(reasoning)))
    && Shows(details, InputCached, cached.Some?, Amount(cached))
    && Shows(details, InputCacheCreation, created.Some?, Amount(created))
    && Shows(details, OutputReasoning, reasoning.Some?, Amount(reasoning))
    && Shows(details, Total, true, if total.Some? then total.value as int else Wrap(SumShown(details)) as int)
  }

  lemma CountsAreReported(usage: Json, input: Option<int64>, output: Option<int64>, total: Option<int64>,
                          cached: Option<int64>, created: Option<int64>, reasoning: Option<int64>)
    requires InputReported(usage, input) && OutputReported(usage, output) && TotalReported(usage, total)
    requires CachedReported(usage, cached) && CreatedReported(usage, created) && ReasoningReported(usage, reasoning)
    ensures CountsOf(usage) == Counts(input, output, total, cached, created, reasoning, CacheIsIncluded(usage))
  {
    hide First, FirstTokenCount, TokenCountAt, Missing;
    FirstIsCount(usage, [["prompt_tokens"], ["input_tokens"]], input);
    FirstIsCount(usage, [["completion_tokens"], ["output_tokens"]], output);
    FirstIsCount(usage, [["total_tokens"], ["total"]], total);
    FirstIsCount(usage, [["prompt_tokens_details", "cached_tokens"], ["input_tokens_details", "cached_tokens"],
                         ["cache_read_input_tokens"], ["cache_read_tokens"]], cached);
    FirstIsCount(usage, [["prompt_tokens_details", "cache_creation_tokens"], ["input_tokens_details", "cache_creation_tokens"],
                         ["cache_creation_input_tokens"], ["cache_write_tokens"]], created);
    FirstIsCount(usage, [["completion_tokens_details", "reasoning_tokens"], ["output_tokens_details", "reasoning_tokens"],
                         ["reasoning_tokens"]], reasoning);
    InclusionIsReported(usage);
    CountIsMissing(usage, ["prompt_tokens"]);
  }

  lemma InclusionIsReported(usage: Json)
    ensures var nested := FirstTokenCount(usage, [["prompt_tokens_details", "cached_tokens"], ["input_tokens_details", "cached_tokens"]]);
      nested.Some? <==>
        !Missing(usage, ["prompt_tokens_details", "cached_tokens"]) || !Missing(usage, ["input_tokens_details", "cached_tokens"])
  {
    hide Missing, FirstTokenCount, TokenCountAt;
    var paths := [["prompt_tokens_details", "cached_tokens"], ["input_tokens_details", "cached_tokens"]];
    FirstIsCount(usage, paths, None);
    assert paths[0] == ["prompt_tokens_details", "cached_tokens"] && paths[1] == ["input_tokens_details", "cached_tokens"];
  }

  lemma BreaksIsSplit(c: Counts, details: map<Part, int64>)
    requires Total in details && Breaks(c, details - {Total})
    requires details[Total] == if c.total.Some? then c.total.value else Wrap(PartsSum(details - {Total}, PARTS))
    ensures SplitOf(details, c.input, c.output, c.total, c.cacheRead, c.cacheWrite, c.reasoning, c.inputIncludesCache)
  {
    hide Wrap;
    var parts := details - {Total};
    assert forall part :: part in parts <==> part in details && part != Total;
    assert PartsSum(parts, PARTS) == SumShown(details);
  }

  /**
   The breakdown of a report: what each dialect calls its counts, the first name
   that holds one winning; cached and cache-creation tokens taken out of the input
   in the dialects that include them, reasoning tokens out of the output, neither
   below zero; the details and the total as reported, and a missing total summed up.
   */
  lemma ReportIsSplit(usage: Json, input: Option<int64>, output: Option<int64>, total: Option<int64>,
                      cached: Option<int64>, created: Option<int64>, reasoning: Option<int64>)
    requires InputReported(usage, input) && OutputReported(usage, output) && TotalReported(usage, total)
    requires CachedReported(usage, cached) && CreatedReported(usage, created) && ReasoningReported(usage, reasoning)
    ensures Breakdown(usage).None? <==>
      input.None? && output.None? && total.None? && cached.None? && created.None? && reasoning.None?
    ensures Breakdown(usage).Some? ==>
      SplitOf(Breakdown(usage).value, input, output, total, cached, created, reasoning, CacheIsIncluded(usage))
  {
    CountsAreReported(usage, input, output, total, cached, created, reasoning);
    DetailsAreReported(CountsOf(usage));
    if Breakdown(usage).Some? { BreaksIsSplit(CountsOf(usage), Breakdown(usage).value); }
    hide Breaks, SplitOf, Details, PartsSum, Wrap, First, Missing;
  }

  lemma FirstWins(usage: Json, paths: seq<seq<string>>, n: int64)
    requires paths != [] && Reports(usage, paths[0], n)
    ensures First(usage, paths, Some(n))
  {
    hide Reports;
  }

  /**
   A report in the OpenAI dialect: `prompt_tokens` and `completion_tokens` include
   what their details name, wherever the details stand.
   */
  lemma PromptAndCompletion(usage: Json, p: int64, c: int64, cached: Option<int64>, created: Option<int64>, reasoning: Option<int64>)
    returns (details: map<Part, int64>)
    requires Reports(usage, ["prompt_tokens"], p) && Reports(usage, ["completion_tokens"], c)
    requires CachedReported(usage, cached) && CreatedReported(usage, created) && ReasoningReported(usage, reasoning)
    ensures Breakdown(usage) == Some(details)
    ensures Input in details && details[Input] as int == Max(0, p as int - Amount(cached) - Amount(created))
    ensures Output in details && details[Output] as int == Max(0, c as int - Amount(reasoning))
  {
    FirstWins(usage, [["prompt_tokens"], ["input_tokens"]], p);
    FirstWins(usage, [["completion_tokens"], ["output_tokens"]], c);
    var total := FirstTokenCount(usage, [["total_tokens"], ["total"]]);
    FirstIsCount(usage, [["total_tokens"], ["total"]], total);
    hide First, Reports, FirstTokenCount, Breakdown, CachedReported, CreatedReported, ReasoningReported, SumShown, Wrap;
    ReportIsSplit(usage, Some(p), Some(c), total, cached, created, reasoning);
    details := Breakdown(usage).value;
  }

  /** A report in the Anthropic dialect: the cache counts stand beside `input_tokens`, which is taken as it is. */
  lemma InputBesideCache(usage: Json, input: int64, cached: int64, created: int64) returns (details: map<Part, int64>)
    requires Missing(usage, ["prompt_tokens"]) && Reports(usage, ["input_tokens"], input)
    requires Missing(usage, ["prompt_tokens_details", "cached_tokens"]) && Missing(usage, ["input_tokens_details", "cached_tokens"])
    requires Missing(usage, ["prompt_tokens_details", "cache_creation_tokens"])
    requires Missing(usage, ["input_tokens_details", "cache_creation_tokens"])
    requires Reports(usage, ["cache_read_input_tokens"], cached) && Reports(usage, ["cache_creation_input_tokens"], created)
    ensures Breakdown(usage) == Some(details)
    ensures Input in details && details[Input] == input
    ensures InputCached in details && details[InputCached] == cached
    ensures InputCacheCreation in details && details[InputCacheCreation] == created
  {
    BesideFirst(usage, input, cached, created);
    var output := FirstTokenCount(usage, [["completion_tokens"], ["output_tokens"]]);
    FirstIsCount(usage, [["completion_tokens"], ["output_tokens"]], output);
    var total := FirstTokenCount(usage, [["total_tokens"], ["total"]]);
    FirstIsCount(usage, [["total_tokens"], ["total"]], total);
    var paths := [["completion_tokens_details", "reasoning_tokens"], ["output_tokens_details", "reasoning_tokens"], ["reasoning_tokens"]];
    var reasoning := FirstTokenCount(usage, paths);
    FirstIsCount(usage, paths, reasoning);
    hide First, Reports, Missing, FirstTokenCount, Breakdown, InputReported, CachedReported, CreatedReported, SumShown, Wrap;
    ReportIsSplit(usage, Some(input), output, total, Some(cached), Some(created), reasoning);
    details := Breakdown(usage).value;
  }

  lemma BesideFirst(usage: Json, input: int64, cached: int64, created: int64)
    requires Missing(usage, ["prompt_tokens"]) && Reports(usage, ["input_tokens"], input)
    requires Missing(usage, ["prompt_tokens_details", "cached_tokens"]) && Missing(usage, ["input_tokens_details", "cached_tokens"])
    requires Missing(usage, ["prompt_tokens_details", "cache_creation_tokens"])
    requires Missing(usage, ["input_tokens_details", "cache_creation_tokens"])
    requires Reports(usage, ["cache_read_input_tokens"], cached) && Reports(usage, ["cache_creation_input_tokens"], created)
    ensures InputReported(usage, Some(input)) && CachedReported(usage, Some(cached)) && CreatedReported(usage, Some(created))
  {
    hide Reports, Missing;
    var inputs := [["prompt_tokens"], ["input_tokens"]];
    assert Reports(usage, inputs[1], input);
    var cacheReads := [["prompt_tokens_details", "cached_tokens"], ["input_tokens_details", "cached_tokens"],
                  ["cache_read_input_tokens"], ["cache_read_tokens"]];
    assert Reports(usage, cacheReads[2], cached);
    var cacheWrites := [["prompt_tokens_details", "cache_creation_tokens"], ["input_tokens_details", "cache_creation_tokens"],
                   ["cache_creation_input_tokens"], ["cache_write_tokens"]];
    assert Reports(usage, cacheWrites[2], created);
  }

  /** A field of the rendered object is there exactly if it was reported, with this value. */
  ghost predicate ShowsField(fields: seq<(string, int64)>, name: string, reported: bool, value: int) {
    forall n: int64 :: (name, n) in fields <==> reported && n as int == value
  }

  ghost predicate ShowsFields(fields: seq<(string, int64)>, input: Option<int64>, output: Option<int64>, total: Option<int64>,
                              cached: Option<int64>, created: Option<int64>, reasoning: Option<int64>, included: bool) {
    && ShowsField(fields, "input", input.Some?,
         if included then Max(0, Amount(input) - Amount(cached) - Amount(created)) else Amount(input))
    && ShowsField(fields, "output", output.Some?, Max(0, Amount(output) - Amount(reasoning)))
    && ShowsField(fields, "input_cached_tokens", cached.Some?, Amount(cached))
    && ShowsField(fields, "input_cache_creation", created.Some?, Amount(created))
    && ShowsField(fields, "output_reasoning_tokens", reasoning.Some?, Amount(reasoning))
    && (total.Some? ==> ShowsField(fields, "total", true, total.value as int))
  }

  lemma FieldIsPart(details: map<Part, int64>, name: string, n: int64)
    ensures (name, n) in Fields(details) <==>
      || (name == "input" && Input in details && details[Input] == n)
      || (name == "input_cache_creation" && InputCacheCreation in details && details[InputCacheCreation] == n)
      || (name == "input_cached_tokens" && InputCached in details && details[InputCached] == n)
      || (name == "output" && Output in details && details[Output] == n)
      || (name == "output_reasoning_tokens" && OutputReasoning in details && details[OutputReasoning] == n)
      || (name == "total" && Total in details && details[Total] == n)
  {
  }

  lemma FieldNamesDiffer()
    ensures "input" != "output" && "input" != "total" && "output" != "total"
    ensures |"input"| == 5 && |"output"| == 6 && |"total"| == 5 && |"input_cached_tokens"| == 19
    ensures |"input_cache_creation"| == 20 && |"output_reasoning_tokens"| == 23
  {
    assert "input"[0] == 'i' && "output"[0] == 'o' && "total"[0] == 't';
  }

  lemma SplitIsShown(details: map<Part, int64>, input: Option<int64>, output: Option<int64>, total: Option<int64>,
                     cached: Option<int64>, created: Option<int64>, reasoning: Option<int64>, included: bool)
    requires SplitOf(details, input, output, total, cached, created, reasoning, included)
    ensures ShowsFields(Fields(details), input, output, total, cached, created, reasoning, included)
  {
    FieldNamesDiffer();
    hide Fields;
    forall name, n ensures (name, n) in Fields(details) <==>
      || (name == "input" && Input in details && details[Input] == n)
      || (name == "input_cache_creation" && InputCacheCreation in details && details[InputCacheCreation] == n)
      || (name == "input_cached_tokens" && InputCached in details && details[InputCached] == n)
      || (name == "output" && Output in details && details[Output] == n)
      || (name == "output_reasoning_tokens" && OutputReasoning in details && details[OutputReasoning] == n)
      || (name == "total" && Total in details && details[Total] == n)
    {
      FieldIsPart(details, name, n);
    }
  }

  lemma UsageNames()
    ensures Name(UsageDetails) == "langfuse.observation.usage_details"
    ensures SCOPE_TYPE == "nemo_relay.scope_type" && USAGE == "nemo_relay.end.output.usage"
  {
  }

  /** The same in what a generation exports: the reported usage, split, is the value of the usage attribute. */
  lemma ReportIsExported(c: Context, name: string, attributes: Attributes.AttributeList, raw: string, usage: Json,
                         input: Option<int64>, output: Option<int64>, total: Option<int64>,
                         cached: Option<int64>, created: Option<int64>, reasoning: Option<int64>)
    returns (fields: seq<(string, int64)>)
    requires name != "hermes.turn"
    requires Attributes.StringValue(WithoutCanonical(c.codec, attributes), "nemo_relay.scope_type") == Some("llm")
    requires RelayPayload(c.r, WithoutCanonical(c.codec, attributes), "nemo_relay.end.output.usage") == Some(raw)
    requires c.r.parse(raw) == Some(usage)
    requires InputReported(usage, input) && OutputReported(usage, output) && TotalReported(usage, total)
    requires CachedReported(usage, cached) && CreatedReported(usage, created) && ReasoningReported(usage, reasoning)
    requires input.Some? || output.Some? || total.Some? || cached.Some? || created.Some? || reasoning.Some?
    ensures ShowsFields(fields, input, output, total, cached, created, reasoning, CacheIsIncluded(usage))
    ensures var list := CanonicalSpan(c.codec, c.r, name, attributes, c.p, c.h, c.batchId);
      && Attributes.StringValue(list, "langfuse.observation.usage_details") == Some(c.r.details(fields))
      && Attributes.Count(list, "langfuse.observation.usage_details") == 1
  {
    UsageNames();
    hide RelayPayload, WithoutCanonical, CanonicalSpan, Breakdown, SplitOf, Name, ReportsDetails, Attributes.StringValue, Attributes.Count,
      InputReported, OutputReported, TotalReported, CachedReported, CreatedReported, ReasoningReported, CacheIsIncluded, CountsOf;
    ReportIsSplit(usage, input, output, total, cached, created, reasoning);
    assert ReportedUsage(c.r, WithoutCanonical(c.codec, attributes)) == Some(usage);
    ExportedUsageIsTheSplit(c, name, attributes);
    fields := Fields(Breakdown(usage).value);
    SplitIsShown(Breakdown(usage).value, input, output, total, cached, created, reasoning, CacheIsIncluded(usage));
  }

  const PLAIN_REPORT := Obj([Field("prompt_tokens", Number("7")), Field("completion_tokens", Number("2"))])

  lemma FieldIsReported(usage: Json, key: string, literal: string, n: int64)
    requires usage.Obj? && Lookup(usage.fields, key) == Some(Number(literal)) && Text.ParseInt64(literal) == Some(n) && n >= 0
    ensures Reports(usage, [key], n)
  {
    assert [key][1..] == [];
    hide Text.ParseInt64, Lookup;
  }

  lemma FieldIsMissing(usage: Json, path: seq<string>)
    requires path != [] && usage.Obj? && Lookup(usage.fields, path[0]).None?
    ensures Missing(usage, path)
  {
  }

  lemma DigitIsRead(digit: char)
    requires '0' <= digit <= '9'
    ensures Text.ParseInt64([digit]) == Some((digit as int - '0' as int) as int64)
  {
    assert [digit][..0] == [] && Text.DigitsValue([digit]) == digit as int - '0' as int;
    Text.ParseDigits([digit]);
  }

  lemma PlainFields(key: string)
    ensures Lookup(PLAIN_REPORT.fields, key) ==
      if key == "prompt_tokens" then Some(Number("7")) else if key == "completion_tokens" then Some(Number("2")) else None
  {
    var fields := PLAIN_REPORT.fields;
    var last := Field("completion_tokens", Number("2"));
    assert fields[1..] == [last] && [last][1..] == [];
    assert Lookup([last], key) == if key == last.key then Some(last.value) else None;
  }

  lemma AllMissing(usage: Json, paths: seq<seq<string>>)
    requires forall i :: 0 <= i < |paths| ==> paths[i] != [] && usage.Obj? && Lookup(usage.fields, paths[i][0]).None?
    ensures First(usage, paths, None)
  {
    hide Lookup, Missing;
    forall i | 0 <= i < |paths| ensures Missing(usage, paths[i]) { FieldIsMissing(usage, paths[i]); }
  }

  lemma PlainPresent()
    ensures InputReported(PLAIN_REPORT, Some(7)) && OutputReported(PLAIN_REPORT, Some(2))
  {
    hide Lookup, First, Reports, Text.ParseInt64;
    PlainFields("prompt_tokens");
    PlainFields("completion_tokens");
    DigitIsRead('7');
    DigitIsRead('2');
    FieldIsReported(PLAIN_REPORT, "prompt_tokens", "7", 7);
    FieldIsReported(PLAIN_REPORT, "completion_tokens", "2", 2);
    FirstWins(PLAIN_REPORT, [["prompt_tokens"], ["input_tokens"]], 7);
    FirstWins(PLAIN_REPORT, [["completion_tokens"], ["output_tokens"]], 2);
  }

  lemma PlainAbsent(paths: seq<seq<string>>)
    requires forall i :: 0 <= i < |paths| ==> paths[i] != [] && paths[i][0] != "prompt_tokens" && paths[i][0] != "completion_tokens"
    ensures First(PLAIN_REPORT, paths, None)
  {
    hide Lookup, First;
    forall i | 0 <= i < |paths| ensures Lookup(PLAIN_REPORT.fields, paths[i][0]).None? { PlainFields(paths[i][0]); }
    AllMissing(PLAIN_REPORT, paths);
  }

  lemma PlainFirsts()
    ensures InputReported(PLAIN_REPORT, Some(7)) && OutputReported(PLAIN_REPORT, Some(2)) && TotalReported(PLAIN_REPORT, None)
    ensures CachedReported(PLAIN_REPORT, None) && CreatedReported(PLAIN_REPORT, None) && ReasoningReported(PLAIN_REPORT, None)
  {
    hide First;
    PlainPresent();
    PlainAbsent([["total_tokens"], ["total"]]);
    PlainAbsent([["prompt_tokens_details", "cached_tokens"], ["input_tokens_details", "cached_tokens"],
                 ["cache_read_input_tokens"], ["cache_read_tokens"]]);
    PlainAbsent([["prompt_tokens_details", "cache_creation_tokens"], ["input_tokens_details", "cache_creation_tokens"],
                 ["cache_creation_input_tokens"], ["cache_write_tokens"]]);
    PlainAbsent([["completion_tokens_details", "reasoning_tokens"], ["output_tokens_details", "reasoning_tokens"],
                 ["reasoning_tokens"]]);
  }

  lemma PlainSplit(details: map<Part, int64>, included: bool)
    requires SplitOf(details, Some(7), Some(2), None, None, None, None, included)
    ensures details == map[Input := 7, Output := 2, Total := 9]
  {
    forall part: Part ensures part in details <==> part in {Input, Output, Total} {
      match part case Input | Output | InputCached | InputCacheCreation | OutputReasoning | Total =>
    }
  }

  /** Seven tokens in, two out, nine in all. */
  lemma PlainReportIsKept()
    ensures Breakdown(PLAIN_REPORT) == Some(map[Input := 7, Output := 2, Total := 9])
  {
    PlainFirsts();
    hide *;
    ReportIsSplit(PLAIN_REPORT, Some(7), Some(2), None, None, None, None);
    PlainSplit(Breakdown(PLAIN_REPORT).value, CacheIsIncluded(PLAIN_REPORT));
  }
}
