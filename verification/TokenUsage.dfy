/** Splitting reported token counts into the parts Langfuse adds up (canonicalize.go, `relayUsageDetails`). */
module TokenUsage {
  import opened Prelude
  import opened Admission
  import opened Json
  import Text

  /** The integer count at `path`, if there is one and it is not negative. */
  function TokenCountAt(value: Json, path: seq<string>): (count: Option<int64>)
    ensures count.Some? ==> count.value >= 0
    decreases |path|
  {
    if path == [] then
      if value.Number? then
        match Text.ParseInt64(value.literal)
        case Some(n) => if n >= 0 then Some(n) else None
        case None => None
      else None
    else if value.Obj? then
      match Lookup(value.fields, path[0])
      case Some(inner) => TokenCountAt(inner, path[1..])
      case None => None
    else None
  }

  function FirstTokenCount(value: Json, paths: seq<seq<string>>): (count: Option<int64>)
    ensures count.Some? ==> count.value >= 0
  {
    if paths == [] then None
    else if TokenCountAt(value, paths[0]).Some? then TokenCountAt(value, paths[0])
    else FirstTokenCount(value, paths[1..])
  }

  /** What an upstream usage report says, whatever dialect it uses. */
  datatype Counts = Counts(
    input: Option<int64>, output: Option<int64>, total: Option<int64>,
    cacheRead: Option<int64>, cacheWrite: Option<int64>, reasoning: Option<int64>,
    inputIncludesCache: bool)

  ghost predicate NonNegative(c: Counts) {
    && (c.input.Some? ==> c.input.value >= 0) && (c.output.Some? ==> c.output.value >= 0)
    && (c.total.Some? ==> c.total.value >= 0) && (c.cacheRead.Some? ==> c.cacheRead.value >= 0)
    && (c.cacheWrite.Some? ==> c.cacheWrite.value >= 0) && (c.reasoning.Some? ==> c.reasoning.value >= 0)
  }

  function CountsOf(usage: Json): (c: Counts)
    ensures NonNegative(c)
  {
    Counts(
      FirstTokenCount(usage, [["prompt_tokens"], ["input_tokens"]]),
      FirstTokenCount(usage, [["completion_tokens"], ["output_tokens"]]),
      FirstTokenCount(usage, [["total_tokens"], ["total"]]),
      FirstTokenCount(usage, [["prompt_tokens_details", "cached_tokens"], ["input_tokens_details", "cached_tokens"],
                              ["cache_read_input_tokens"], ["cache_read_tokens"]]),
      FirstTokenCount(usage, [["prompt_tokens_details", "cache_creation_tokens"], ["input_tokens_details", "cache_creation_tokens"],
                              ["cache_creation_input_tokens"], ["cache_write_tokens"]]),
      FirstTokenCount(usage, [["completion_tokens_details", "reasoning_tokens"], ["output_tokens_details", "reasoning_tokens"],
                              ["reasoning_tokens"]]),
      TokenCountAt(usage, ["prompt_tokens"]).Some?
      || FirstTokenCount(usage, [["prompt_tokens_details", "cached_tokens"], ["input_tokens_details", "cached_tokens"]]).Some?)
  }

  function OrZero(count: Option<int64>): int64 {
    if count.Some? then count.value else 0
  }

  function Sum(values: seq<int64>): int {
    if values == [] then 0 else values[0] as int + Sum(values[1..])
  }

  lemma {:induction false} SumSplits(values: seq<int64>, i: nat)
    requires i < |values|
    ensures Sum(values[i..]) == values[i] as int + Sum(values[i + 1..])
  {
    assert values[i..][1..] == values[i + 1..];
  }

  lemma {:induction false} SumIsNonNegative(values: seq<int64>)
    requires forall i :: 0 <= i < |values| ==> values[i] >= 0
    ensures Sum(values) >= 0
  {
    if values != [] { SumIsNonNegative(values[1..]); }
  }

  /** What is left of a count once its details are taken out, never below zero. */
  method SubtractTokenDetails(total: int64, details: seq<int64>) returns (left: int64)
    requires total >= 0 && forall i :: 0 <= i < |details| ==> details[i] >= 0
    ensures left as int == Max(0, total as int - Sum(details))
  {
    left := total;
    assert details[0..] == details;
    for i := 0 to |details|
      invariant left >= 0
      invariant left as int - Sum(details[i..]) == total as int - Sum(details)
    {
      SumSplits(details, i);
      if details[i] >= left {
        SumIsNonNegative(details[i + 1..]);
        return 0;
      }
      left := left - details[i];
    }
  }

  /** The keys of the rendered breakdown. */
  datatype Part = Input | Output | InputCached | InputCacheCreation | OutputReasoning | Total

  const PARTS: set<Part> := {Input, Output, InputCached, InputCacheCreation, OutputReasoning}

  function Value(details: map<Part, int64>, part: Part): int {
    if part in details then details[part] as int else 0
  }

  /** The sum of the parts whose names are in `names`, as a mathematical integer. */
  function PartsSum(details: map<Part, int64>, names: set<Part>): int {
      (if Input in names then Value(details, Input) else 0)
    + (if Output in names then Value(details, Output) else 0)
    + (if InputCached in names then Value(details, InputCached) else 0)
    + (if InputCacheCreation in names then Value(details, InputCacheCreation) else 0)
    + (if OutputReasoning in names then Value(details, OutputReasoning) else 0)
  }

  lemma WrapAdds(a: int, b: int)
    ensures Wrap(Wrap(a) as int + b) == Wrap(a + b)
  {
    var m := 0x1_0000_0000_0000_0000;
    var q := (a - Wrap(a) as int) / m;
    assert a == Wrap(a) as int + q * m;
    ShiftedWrap(Wrap(a) as int + b, q);
  }

  lemma ShiftedWrap(a: int, q: int)
    ensures Wrap(a + q * 0x1_0000_0000_0000_0000) == Wrap(a)
  {
    assert (a + q * 0x1_0000_0000_0000_0000) % 0x1_0000_0000_0000_0000 == a % 0x1_0000_0000_0000_0000;
  }

  /** The prompt tokens that were neither read from nor written to a cache. */
  function RegularInput(c: Counts): int
    requires c.input.Some?
  {
    if c.inputIncludesCache then Max(0, c.input.value as int - (OrZero(c.cacheRead) as int + OrZero(c.cacheWrite) as int))
    else c.input.value as int
  }

  /** The breakdown before a total is added: each part as reported, the enclosing counts less what they include. */
  ghost predicate Breaks(c: Counts, details: map<Part, int64>) {
    && details.Keys <= PARTS
    && (Input in details <==> c.input.Some?)
    && (Output in details <==> c.output.Some?)
    && (InputCached in details <==> c.cacheRead.Some?)
    && (InputCacheCreation in details <==> c.cacheWrite.Some?)
    && (OutputReasoning in details <==> c.reasoning.Some?)
    && (InputCached in details ==> details[InputCached] == c.cacheRead.value)
    && (InputCacheCreation in details ==> details[InputCacheCreation] == c.cacheWrite.value)
    && (OutputReasoning in details ==> details[OutputReasoning] == c.reasoning.value)
    && (Input in details ==> details[Input] as int == RegularInput(c))
    && (Output in details ==> details[Output] as int == Max(0, c.output.value as int - OrZero(c.reasoning) as int))
  }

  /** The value of one part of the breakdown, if it is emitted. */
  function PartOf(c: Counts, part: Part): (value: Option<int64>)
    requires NonNegative(c)
    ensures value.Some? ==> value.value >= 0
  {
    match part
    case Input => if c.input.Some? then Some(RegularInput(c) as int64) else None
    case Output =>
      if c.output.Some? then Some(Max(0, c.output.value as int - OrZero(c.reasoning) as int) as int64) else None
    case InputCached => c.cacheRead
    case InputCacheCreation => c.cacheWrite
    case OutputReasoning => c.reasoning
    case Total => None
  }

  function Parts(c: Counts): map<Part, int64>
    requires NonNegative(c)
  {
    map part | part in PARTS && PartOf(c, part).Some? :: PartOf(c, part).value
  }

  /** The emitted breakdown, total included; nothing when nothing was reported. */
  function Details(c: Counts): Option<map<Part, int64>>
    requires NonNegative(c)
  {
    if c.total.Some? then Some(Parts(c)[Total := c.total.value])
    else if Parts(c) == map[] then None
    else Some(Parts(c)[Total := Wrap(PartsSum(Parts(c), PARTS))])
  }

  /** The breakdown is determined by the counts. */
  lemma BreaksIsParts(c: Counts, details: map<Part, int64>)
    requires NonNegative(c)
    ensures Breaks(c, details) <==> details == Parts(c)
  {
    forall part | part in PARTS ensures part in Parts(c) <==> PartOf(c, part).Some? { }
    if Breaks(c, details) {
      forall part: Part ensures part in details <==> part in Parts(c) {
        match part case Input | Output | InputCached | InputCacheCreation | OutputReasoning | Total => { }
      }
    }
  }

  lemma SumOfTwo(a: int64, b: int64)
    ensures Sum([a]) == a as int && Sum([a, b]) == a as int + b as int
  {
    assert [a][1..] == [] && [a, b][1..] == [b] && [b][1..] == [];
  }

  method SplitParts(c: Counts) returns (details: map<Part, int64>)
    requires NonNegative(c)
    ensures Breaks(c, details)
  {
    details := map[];
    if c.input.Some? {
      var regularInput := c.input.value;
      if c.inputIncludesCache {
        SumOfTwo(OrZero(c.cacheRead), OrZero(c.cacheWrite));
        regularInput := SubtractTokenDetails(regularInput, [OrZero(c.cacheRead), OrZero(c.cacheWrite)]);
      }
      details := details[Input := regularInput];
    }
    if c.output.Some? {
      var regularOutput := c.output.value;
      if c.reasoning.Some? {
        SumOfTwo(c.reasoning.value, 0);
        regularOutput := SubtractTokenDetails(regularOutput, [c.reasoning.value]);
      }
      details := details[Output := regularOutput];
    }
    if c.cacheRead.Some? { details := details[InputCached := c.cacheRead.value]; }
    if c.cacheWrite.Some? { details := details[InputCacheCreation := c.cacheWrite.value]; }
    if c.reasoning.Some? { details := details[OutputReasoning := c.reasoning.value]; }
  }

  /** The total of the parts, added up in whatever order the map is visited. */
  method TotalOf(details: map<Part, int64>) returns (total: int64)
    requires details.Keys <= PARTS
    ensures total == Wrap(PartsSum(details, PARTS))
  {
    hide Wrap, PartsSum;
    NoParts(details);
    total := 0;
    var rest := details.Keys;
    ghost var seen: set<Part> := {};
    while rest != {}
      invariant rest <= details.Keys && seen == details.Keys - rest
      invariant total == Wrap(PartsSum(details, seen))
      decreases |rest|
    {
      var key :| key in rest;
      WrapAdds(PartsSum(details, seen), details[key] as int);
      OneMorePart(details, seen, key);
      total := Wrap(total as int + details[key] as int);
      rest := rest - {key};
      seen := seen + {key};
    }
    AllParts(details, seen);
  }

  lemma NoParts(details: map<Part, int64>)
    ensures PartsSum(details, {}) == 0 && Wrap(0) == 0
  {
  }

  lemma AllParts(details: map<Part, int64>, seen: set<Part>)
    requires details.Keys <= seen <= PARTS
    ensures PartsSum(details, seen) == PartsSum(details, PARTS)
  {
  }

  lemma OneMorePart(details: map<Part, int64>, seen: set<Part>, key: Part)
    requires key in PARTS && key !in seen && key in details
    ensures PartsSum(details, seen + {key}) == PartsSum(details, seen) + details[key] as int
  {
  }

  function FieldOf(details: map<Part, int64>, part: Part, name: string): seq<(string, int64)> {
    if part in details then [(name, details[part])] else []
  }

  /** The fields of the rendered object, in the order of their names, as `json.Marshal` writes them. */
  function Fields(details: map<Part, int64>): seq<(string, int64)> {
    FieldOf(details, Input, "input") + FieldOf(details, InputCacheCreation, "input_cache_creation")
    + FieldOf(details, InputCached, "input_cached_tokens") + FieldOf(details, Output, "output")
    + FieldOf(details, OutputReasoning, "output_reasoning_tokens") + FieldOf(details, Total, "total")
  }

  /** What a usage report is broken down into. */
  function Breakdown(usage: Json): Option<map<Part, int64>> {
    Details(CountsOf(usage))
  }

  /** `relayUsageDetails` on the decoded report; nothing is rendered when nothing was reported. */
  method RelayUsageDetails(usage: Json) returns (r: Option<map<Part, int64>>)
    ensures r == Breakdown(usage) && ReportsDetails(CountsOf(usage), r)
  {
    var c := CountsOf(usage);
    r := DetailsOf(c);
  }

  ghost predicate ReportsDetails(c: Counts, r: Option<map<Part, int64>>) {
    && (r.Some? ==> Total in r.value && Breaks(c, r.value - {Total}))
    && (r.None? <==> c.input.None? && c.output.None? && c.total.None? && c.cacheRead.None? && c.cacheWrite.None? && c.reasoning.None?)
    && (r.Some? ==>
          r.value[Total] == if c.total.Some? then c.total.value else Wrap(PartsSum(r.value - {Total}, PARTS)))
  }

  method DetailsOf(c: Counts) returns (r: Option<map<Part, int64>>)
    requires NonNegative(c)
    ensures r == Details(c) && ReportsDetails(c, r)
  {
    var details := SplitParts(c);
    BreaksIsParts(c, details);
    EmptyBreakdown(c, details);
    hide Parts, PartsSum, Wrap, Breaks;
    var total: int64 := 0;
    if c.total.Some? {
      total := c.total.value;
    } else if details != map[] {
      total := TotalOf(details);
    } else {
      return None;
    }
    WithTotal(c, details, total);
    return Some(details[Total := total]);
  }

  lemma WithTotal(c: Counts, details: map<Part, int64>, total: int64)
    requires Breaks(c, details)
    ensures details[Total := total] - {Total} == details
  {
  }

  lemma DetailsAreReported(c: Counts)
    requires NonNegative(c)
    ensures ReportsDetails(c, Details(c))
  {
    BreaksIsParts(c, Parts(c));
    EmptyBreakdown(c, Parts(c));
    WithTotal(c, Parts(c), if c.total.Some? then c.total.value else Wrap(PartsSum(Parts(c), PARTS)));
    hide Parts, PartsSum, Wrap, Breaks;
  }

  lemma EmptyBreakdown(c: Counts, details: map<Part, int64>)
    requires Breaks(c, details)
    ensures details == map[] <==> c.input.None? && c.output.None? && c.cacheRead.None? && c.cacheWrite.None? && c.reasoning.None?
  {
    if details != map[] {
      var part :| part in details;
    }
  }

  /**
   When the report includes the cached tokens in the prompt, the reasoning
   tokens in the completion, and no total of its own, the emitted parts are
   non-negative and add up to exactly prompt plus completion.
   */
  lemma PartsAddUp(c: Counts, details: map<Part, int64>)
    requires NonNegative(c) && Breaks(c, details)
    requires c.input.Some? && c.output.Some? && c.inputIncludesCache
    requires OrZero(c.cacheRead) as int + OrZero(c.cacheWrite) as int <= c.input.value as int
    requires OrZero(c.reasoning) <= c.output.value
    ensures forall part :: part in details ==> details[part] >= 0
    ensures PartsSum(details, PARTS) == c.input.value as int + c.output.value as int
    ensures c.input.value as int + c.output.value as int <= MAX_INT64 ==>
      Wrap(PartsSum(details, PARTS)) as int == c.input.value as int + c.output.value as int
  {
  }

  /**
   The parts add up to prompt plus completion exactly if the details fit: cache
   parts within a prompt that includes them, or none beside one that does not,
   and the reasoning within the completion.
   */
  lemma PartsAddUpIff(c: Counts, details: map<Part, int64>)
    requires NonNegative(c) && Breaks(c, details)
    requires c.input.Some? && c.output.Some?
    ensures PartsSum(details, PARTS) == c.input.value as int + c.output.value as int <==>
      && (if c.inputIncludesCache then OrZero(c.cacheRead) as int + OrZero(c.cacheWrite) as int <= c.input.value as int
          else OrZero(c.cacheRead) == 0 && OrZero(c.cacheWrite) == 0)
      && OrZero(c.reasoning) <= c.output.value
  {
  }
}
