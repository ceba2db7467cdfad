/**
 Removing credentials and raw audio from attributes (redact.go). The recursion
 runs through lists, values, strings and the JSON text inside strings; one depth
 budget, shared by all of them, bounds it.
 */
module Redaction {
  import opened Prelude
  import opened Keys
  import opened Json
  import opened Attributes
  import opened Text

  const REPLACEMENT := "[REDACTED]"
  const MAX_DEPTH: nat := 12
  const MAX_ENTRIES: nat := 256
  const MAX_EMBEDDED: nat := 1024 * 1024

  const CREDENTIAL_TERMS: seq<string> := [
    "authorization", "cookie", "setcookie", "csrf", "password", "passwd",
    "apikey", "accesskey", "secretkey", "accesstoken", "refreshtoken",
    "sessiontoken", "clientsecret", "privatekey", "langfusepublickey",
    "langfusesecretkey"]

  const AUDIO_TERMS: seq<string> := ["audiobytes", "audiobase64", "rawaudio", "microphonebytes", "audiofilepath"]

  /** The text formats redaction reads and writes: JSON, base64 data URLs, media descriptors. */
  datatype Codec = Codec(
    parse: string -> Option<Json>,
    render: Json -> string,
    dataUrl: string -> Option<(string, seq<byte>)>,
    describe: (string, seq<byte>) -> string)

  /** Lower case, and everything but ASCII letters and digits dropped. */
  function NormalizedKey(key: string): string {
    if key == [] then []
    else
      var c := LowerChar(key[0]);
      (if 'a' <= c <= 'z' || '0' <= c <= '9' then [c] else []) + NormalizedKey(key[1..])
  }

  predicate ContainsTerm(normalized: string, terms: seq<string>) {
    exists i :: 0 <= i < |terms| && Contains(normalized, terms[i])
  }

  predicate IsAudio(key: string) {
    ContainsTerm(NormalizedKey(key), AUDIO_TERMS)
  }

  predicate IsCredential(key: string) {
    ContainsTerm(NormalizedKey(key), CREDENTIAL_TERMS)
  }

  predicate IsPrivateKey(text: string) {
    Contains(ToLower(text), "-----begin ") && Contains(ToLower(text), "private key-----")
  }

  predicate IsBearer(text: string) {
    HasPrefix(TrimSpace(ToLower(text)), "bearer ")
  }

  /** A text that could be a JSON object or array. */
  predicate LooksLikeJson(text: string) {
    HasPrefix(TrimSpace(text), "{") || HasPrefix(TrimSpace(text), "[")
  }

  /** Depth and size still allow looking inside. */
  predicate Examinable(text: string, depth: nat) {
    depth <= MAX_DEPTH && Utf8Length(TrimSpace(text)) <= MAX_EMBEDDED
  }

  /** The JSON value inside a string, if depth and size still allow looking. */
  function Embedded(codec: Codec, text: string, depth: nat): Option<Json> {
    if Examinable(text, depth) && LooksLikeJson(text) then codec.parse(TrimSpace(text)) else None
  }

  function Budget(depth: nat): nat {
    if depth <= MAX_DEPTH + 1 then MAX_DEPTH + 2 - depth else 0
  }

  function FirstFew<T>(items: seq<T>): (r: seq<T>)
    ensures |r| <= MAX_ENTRIES && r <= items
  {
    if |items| <= MAX_ENTRIES then items else items[..MAX_ENTRIES]
  }

  // --- What redaction computes ---------------------------------------------

  function SanitizeString(codec: Codec, text: string, depth: nat): string
    decreases Budget(depth), 0
  {
    if IsPrivateKey(text) || IsBearer(text) then REPLACEMENT
    else match codec.dataUrl(TrimSpace(text))
      case Some((mediaType, bytes)) => codec.describe(mediaType, bytes)
      case None =>
        match Embedded(codec, text, depth)
        case Some(decoded) => codec.render(SanitizeJson(codec, decoded, depth + 1))
        case None => text
  }

  function SanitizeJson(codec: Codec, value: Json, depth: nat): Json
    decreases Budget(depth), 0
  {
    if depth > MAX_DEPTH then Str(REPLACEMENT)
    else match value
      case Obj(fields) => Obj(SanitizeFields(codec, FirstFew(fields), depth))
      case Arr(items) => Arr(SanitizeItems(codec, FirstFew(items), depth))
      case Str(text) => Str(SanitizeString(codec, text, depth + 1))
      case _ => value
  }

  function SanitizeFields(codec: Codec, fields: seq<Field>, depth: nat): seq<Field>
    requires depth <= MAX_DEPTH
    decreases Budget(depth + 1), 1, |fields|
  {
    if fields == [] then []
    else
      var last := fields[|fields| - 1];
      SanitizeFields(codec, fields[..|fields| - 1], depth)
      + if IsAudio(last.key) then []
        else if IsCredential(last.key) then [Field(last.key, Str(REPLACEMENT))]
        else [Field(last.key, SanitizeJson(codec, last.value, depth + 1))]
  }

  function SanitizeItems(codec: Codec, items: seq<Json>, depth: nat): seq<Json>
    requires depth <= MAX_DEPTH
    decreases Budget(depth + 1), 1, |items|
  {
    if items == [] then []
    else SanitizeItems(codec, items[..|items| - 1], depth) + [SanitizeJson(codec, items[|items| - 1], depth + 1)]
  }

  function SanitizeValue(codec: Codec, value: Option<Value>, depth: nat): Value
    decreases Budget(depth), 0
  {
    if value.None? || depth > MAX_DEPTH then Value.Text(REPLACEMENT)
    else match value.value
      case Text(text) => Value.Text(SanitizeString(codec, text, depth))
      case Bytes(bytes) => Value.Text(codec.describe("application/octet-stream", bytes))
      case Array(items) => Value.Array(SanitizeValues(codec, FirstFew(items), depth))
      case Kvlist(list) => Kvlist(AttributesAtDepth(codec, list, depth + 1))
      case _ => value.value
  }

  function SanitizeValues(codec: Codec, items: seq<Option<Value>>, depth: nat): seq<Option<Value>>
    requires depth <= MAX_DEPTH
    decreases Budget(depth + 1), 1, |items|
  {
    if items == [] then []
    else SanitizeValues(codec, items[..|items| - 1], depth) + [Some(SanitizeValue(codec, items[|items| - 1], depth + 1))]
  }

  predicate Usable(attribute: Option<KeyValue>) {
    attribute.Some? && attribute.value.value.Some?
  }

  /** The attributes the loop reaches: it stops at the first nil one and after the 256th. */
  function Reached(attributes: AttributeList): (r: AttributeList)
    ensures |r| <= |attributes| && forall i :: 0 <= i < |r| ==> Usable(r[i])
  {
    if attributes == [] || !Usable(attributes[0]) then [] else [attributes[0]] + Reached(attributes[1..])
  }

  function AttributesAtDepth(codec: Codec, attributes: AttributeList, depth: nat): AttributeList
    decreases Budget(depth), 0
  {
    if depth > MAX_DEPTH then [] else SanitizeAttributes(codec, Reached(FirstFew(attributes)), depth)
  }

  function SanitizeAttributes(codec: Codec, attributes: AttributeList, depth: nat): AttributeList
    requires depth <= MAX_DEPTH
    requires forall i :: 0 <= i < |attributes| ==> Usable(attributes[i])
    decreases Budget(depth + 1), 1, |attributes|
  {
    if attributes == [] then []
    else
      assert Usable(attributes[|attributes| - 1]);
      var last := attributes[|attributes| - 1].value;
      SanitizeAttributes(codec, attributes[..|attributes| - 1], depth)
      + if IsAudio(last.key) then []
        else if IsCredential(last.key) then [Attribute(last.key, Value.Text(REPLACEMENT))]
        else [Attribute(last.key, SanitizeValue(codec, last.value, depth + 1))]
  }

  // --- The loops -----------------------------------------------------------

  method CleanAttributes(codec: Codec, attributes: AttributeList, depth: nat) returns (result: AttributeList)
    ensures result == AttributesAtDepth(codec, attributes, depth)
    decreases Budget(depth), 1
  {
    if depth > MAX_DEPTH { return []; }
    result := [];
    ghost var reached := Reached(FirstFew(attributes));
    ReachedIsPrefix(FirstFew(attributes));
    var index := 0;
    while index < |attributes|
      invariant index <= |reached| && index <= |attributes|
      invariant result == SanitizeAttributes(codec, reached[..index], depth)
    {
      if index >= MAX_ENTRIES || attributes[index].None? || attributes[index].value.value.None? { break; }
      ReachedGoesOn(FirstFew(attributes), index);
      var attribute := attributes[index].value;
      assert reached[..index + 1][..index] == reached[..index];
      index := index + 1;
      if IsAudio(attribute.key) { continue; }
      if IsCredential(attribute.key) {
        result := result + [Attribute(attribute.key, Value.Text(REPLACEMENT))];
        continue;
      }
      var value := CleanValueOf(codec, attribute.value, depth + 1);
      result := result + [Attribute(attribute.key, value)];
    }
    ReachedStops(FirstFew(attributes), index);
    assert reached[..index] == reached;
  }

  lemma {:induction false} ReachedIsPrefix(attributes: AttributeList)
    ensures Reached(attributes) <= attributes
  {
    if attributes != [] && Usable(attributes[0]) {
      ReachedIsPrefix(attributes[1..]);
    }
  }

  /** While every attribute so far was usable, the loop is still inside the reached prefix. */
  lemma {:induction false} ReachedGoesOn(attributes: AttributeList, index: nat)
    requires index <= |Reached(attributes)| && index < |attributes| && Usable(attributes[index])
    ensures index < |Reached(attributes)| && Reached(attributes)[index] == attributes[index]
  {
    if index > 0 {
      ReachedGoesOn(attributes[1..], index - 1);
    }
  }

  lemma {:induction false} ReachedStops(attributes: AttributeList, index: nat)
    requires index <= |Reached(attributes)|
    requires index < |attributes| ==> !Usable(attributes[index])
    ensures index == |Reached(attributes)|
  {
    if attributes != [] && Usable(attributes[0]) {
      if index == 0 { assert false; }
      ReachedStops(attributes[1..], index - 1);
    }
  }

  method CleanValueOf(codec: Codec, value: Option<Value>, depth: nat) returns (clean: Value)
    ensures clean == SanitizeValue(codec, value, depth)
    decreases Budget(depth), 0
  {
    if value.None? || depth > MAX_DEPTH { return Value.Text(REPLACEMENT); }
    match value.value {
      case Text(text) =>
        var cleanText := CleanString(codec, text, depth);
        return Value.Text(cleanText);
      case Bytes(bytes) =>
        return Value.Text(codec.describe("application/octet-stream", bytes));
      case Array(items) =>
        var values := FirstFew(items);
        var cleanItems: seq<Option<Value>> := [];
        for i := 0 to |values|
          invariant cleanItems == SanitizeValues(codec, values[..i], depth)
        {
          assert values[..i + 1][..i] == values[..i];
          var item := CleanValueOf(codec, values[i], depth + 1);
          cleanItems := cleanItems + [Some(item)];
        }
        assert values[..|values|] == values;
        return Value.Array(cleanItems);
      case Kvlist(list) =>
        var cleanList := CleanAttributes(codec, list, depth + 1);
        return Kvlist(cleanList);
      case _ => return value.value;
    }
  }

  method CleanString(codec: Codec, text: string, depth: nat) returns (clean: string)
    ensures clean == SanitizeString(codec, text, depth)
    decreases Budget(depth), 0
  {
    if IsPrivateKey(text) || IsBearer(text) { return REPLACEMENT; }
    var url := codec.dataUrl(TrimSpace(text));
    if url.Some? { return codec.describe(url.value.0, url.value.1); }
    var decoded := Embedded(codec, text, depth);
    if decoded.None? { return text; }
    var cleanJson := CleanJsonOf(codec, decoded.value, depth + 1);
    return codec.render(cleanJson);
  }

  method CleanJsonOf(codec: Codec, value: Json, depth: nat) returns (clean: Json)
    ensures clean == SanitizeJson(codec, value, depth)
    decreases Budget(depth), 0
  {
    hide IsAudio, IsCredential, SanitizeString;
    if depth > MAX_DEPTH { return Str(REPLACEMENT); }
    match value {
      case Obj(all) =>
        var fields := FirstFew(all);
        var cleanFields: seq<Field> := [];
        for i := 0 to |fields|
          invariant cleanFields == SanitizeFields(codec, fields[..i], depth)
        {
          assert fields[..i + 1][..i] == fields[..i];
          if IsAudio(fields[i].key) {
          } else if IsCredential(fields[i].key) {
            cleanFields := cleanFields + [Field(fields[i].key, Str(REPLACEMENT))];
          } else {
            var item := CleanJsonOf(codec, fields[i].value, depth + 1);
            cleanFields := cleanFields + [Field(fields[i].key, item)];
          }
        }
        assert fields[..|fields|] == fields;
        return Obj(cleanFields);
      case Arr(all) =>
        var items := FirstFew(all);
        var cleanItems: seq<Json> := [];
        for i := 0 to |items|
          invariant cleanItems == SanitizeItems(codec, items[..i], depth)
        {
          assert items[..i + 1][..i] == items[..i];
          var item := CleanJsonOf(codec, items[i], depth + 1);
          cleanItems := cleanItems + [item];
        }
        assert items[..|items|] == items;
        return Arr(cleanItems);
      case Str(text) =>
        var cleanText := CleanString(codec, text, depth + 1);
        return Str(cleanText);
      case _ => return value;
    }
  }

  // --- What the result is free of ------------------------------------------

  /** Replaced or described as a whole, without looking inside. */
  predicate Caught(codec: Codec, text: string) {
    IsPrivateKey(text) || IsBearer(text) || codec.dataUrl(TrimSpace(text)).Some?
  }

  /** A text in which redaction looked for everything and recognised nothing. */
  predicate NothingRecognised(codec: Codec, text: string) {
    !Caught(codec, text) && (LooksLikeJson(text) ==> codec.parse(TrimSpace(text)).None?)
  }

  /** A text that may hold JSON which redaction did not look at, for depth or size. */
  predicate NotExamined(codec: Codec, text: string, depth: nat) {
    !Caught(codec, text) && LooksLikeJson(text) && !Examinable(text, depth)
  }

  /**
   Replaced, reduced to a media descriptor, re-rendered from clean JSON, or found
   to hold nothing; a text that was not examined passes only if `strict` is off.
   */
  ghost predicate CleanText(codec: Codec, text: string, depth: nat, strict: bool)
    decreases Budget(depth), 0
  {
    || text == REPLACEMENT
    || (exists mediaType, bytes :: text == codec.describe(mediaType, bytes))
    || (depth <= MAX_DEPTH && exists json :: text == codec.render(json) && CleanJson(codec, json, depth + 1, strict))
    || NothingRecognised(codec, text)
    || (!strict && NotExamined(codec, text, depth))
  }

  ghost predicate CleanJson(codec: Codec, value: Json, depth: nat, strict: bool)
    decreases Budget(depth), 0
  {
    if depth > MAX_DEPTH then value == Str(REPLACEMENT)
    else match value
      case Obj(fields) =>
        && |fields| <= MAX_ENTRIES
        && forall i :: 0 <= i < |fields| ==>
             && !IsAudio(fields[i].key)
             && (IsCredential(fields[i].key) ==> fields[i].value == Str(REPLACEMENT))
             && CleanJson(codec, fields[i].value, depth + 1, strict)
      case Arr(items) => |items| <= MAX_ENTRIES && forall i :: 0 <= i < |items| ==> CleanJson(codec, items[i], depth + 1, strict)
      case Str(text) => CleanText(codec, text, depth + 1, strict)
      case _ => true
  }

  /** A list nests one level deeper per array and two per key-value list, and level 13 is all replacement text. */
  ghost predicate CleanValue(codec: Codec, value: Value, depth: nat, strict: bool)
    decreases Budget(depth), 0
  {
    if depth > MAX_DEPTH then value == Value.Text(REPLACEMENT)
    else match value
      case Text(text) => CleanText(codec, text, depth, strict)
      case Bytes(_) => false
      case Array(items) =>
        && |items| <= MAX_ENTRIES
        && forall i :: 0 <= i < |items| ==> items[i].Some? && CleanValue(codec, items[i].value, depth + 1, strict)
      case Kvlist(list) => CleanList(codec, list, depth + 1, strict)
      case _ => true
  }

  ghost predicate CleanAttribute(codec: Codec, attribute: Option<KeyValue>, depth: nat, strict: bool)
    requires depth <= MAX_DEPTH
    decreases Budget(depth + 1), 1
  {
    && Usable(attribute)
    && !IsAudio(attribute.value.key)
    && (IsCredential(attribute.value.key) ==> attribute.value.value == Some(Value.Text(REPLACEMENT)))
    && CleanValue(codec, attribute.value.value.value, depth + 1, strict)
  }

  ghost predicate CleanList(codec: Codec, list: AttributeList, depth: nat, strict: bool)
    decreases Budget(depth), 0
  {
    && |list| <= MAX_ENTRIES
    && if depth > MAX_DEPTH then list == []
       else forall i :: 0 <= i < |list| ==> CleanAttribute(codec, list[i], depth, strict)
  }

  // --- When everything was looked at ---------------------------------------

  /** Redaction looks inside this text, if there is reason to, and inside every text it leads to. */
  ghost predicate ExaminedText(codec: Codec, text: string, depth: nat)
    decreases Budget(depth), 0
  {
    !Caught(codec, text) && LooksLikeJson(text) ==>
      && Examinable(text, depth)
      && var json := codec.parse(TrimSpace(text)); json.Some? ==> ExaminedJson(codec, json.value, depth + 1)
  }

  /** The same for a decoded value; what lies below the budget is replaced and needs no look. */
  ghost predicate ExaminedJson(codec: Codec, value: Json, depth: nat)
    decreases Budget(depth), 0
  {
    depth <= MAX_DEPTH ==>
      match value
      case Obj(fields) =>
        var few := FirstFew(fields);
        forall i :: 0 <= i < |few| ==> ExaminedField(codec, few[i], depth)
      case Arr(items) =>
        var few := FirstFew(items);
        forall i :: 0 <= i < |few| ==> ExaminedJson(codec, few[i], depth + 1)
      case Str(text) => ExaminedText(codec, text, depth + 1)
      case _ => true
  }

  ghost predicate ExaminedField(codec: Codec, field: Field, depth: nat)
    requires depth <= MAX_DEPTH
    decreases Budget(depth + 1), 1
  {
    !IsAudio(field.key) && !IsCredential(field.key) ==> ExaminedJson(codec, field.value, depth + 1)
  }

  ghost predicate ExaminedValue(codec: Codec, value: Option<Value>, depth: nat)
    decreases Budget(depth), 0
  {
    value.Some? && depth <= MAX_DEPTH ==>
      match value.value
      case Text(text) => ExaminedText(codec, text, depth)
      case Array(items) =>
        var few := FirstFew(items);
        forall i :: 0 <= i < |few| ==> ExaminedValue(codec, few[i], depth + 1)
      case Kvlist(list) => ExaminedList(codec, list, depth + 1)
      case _ => true
  }

  ghost predicate ExaminedAttribute(codec: Codec, attribute: KeyValue, depth: nat)
    requires depth <= MAX_DEPTH
    decreases Budget(depth + 1), 1
  {
    !IsAudio(attribute.key) && !IsCredential(attribute.key) ==> ExaminedValue(codec, attribute.value, depth + 1)
  }

  ghost predicate ExaminedList(codec: Codec, attributes: AttributeList, depth: nat)
    decreases Budget(depth), 0
  {
    depth <= MAX_DEPTH ==>
      var reached := Reached(FirstFew(attributes));
      forall i :: 0 <= i < |reached| ==> ExaminedAttribute(codec, reached[i].value, depth)
  }

  lemma {:induction false} SanitizedStringIsClean(codec: Codec, text: string, depth: nat, strict: bool)
    requires strict ==> ExaminedText(codec, text, depth)
    ensures CleanText(codec, SanitizeString(codec, text, depth), depth, strict)
    decreases Budget(depth), 0
  {
    if !IsPrivateKey(text) && !IsBearer(text) && codec.dataUrl(TrimSpace(text)).None? {
      var decoded := Embedded(codec, text, depth);
      if decoded.Some? {
        SanitizedJsonIsClean(codec, decoded.value, depth + 1, strict);
      }
    }
  }

  lemma {:induction false} SanitizedJsonIsClean(codec: Codec, value: Json, depth: nat, strict: bool)
    requires strict ==> ExaminedJson(codec, value, depth)
    ensures CleanJson(codec, SanitizeJson(codec, value, depth), depth, strict)
    decreases Budget(depth), 0
  {
    hide IsAudio, IsCredential, CleanText, SanitizeString;
    if depth <= MAX_DEPTH {
      match value
      case Obj(fields) => SanitizedFieldsAreClean(codec, FirstFew(fields), depth, strict);
      case Arr(items) => SanitizedItemsAreClean(codec, FirstFew(items), depth, strict);
      case Str(text) => SanitizedStringIsClean(codec, text, depth + 1, strict);
      case _ =>
    }
  }

  lemma ReplacementIsClean(codec: Codec, depth: nat, strict: bool)
    ensures CleanJson(codec, Str(REPLACEMENT), depth, strict) && CleanValue(codec, Value.Text(REPLACEMENT), depth, strict)
  {
  }

  lemma {:induction false} SanitizedFieldsAreClean(codec: Codec, fields: seq<Field>, depth: nat, strict: bool)
    requires depth <= MAX_DEPTH
    requires strict ==> forall i :: 0 <= i < |fields| ==> ExaminedField(codec, fields[i], depth)
    ensures var clean := SanitizeFields(codec, fields, depth);
      && |clean| <= |fields|
      && forall i :: 0 <= i < |clean| ==>
           && !IsAudio(clean[i].key)
           && (IsCredential(clean[i].key) ==> clean[i].value == Str(REPLACEMENT))
           && CleanJson(codec, clean[i].value, depth + 1, strict)
    decreases Budget(depth + 1), 1, |fields|
  {
    if fields != [] {
      var last := fields[|fields| - 1];
      SanitizedFieldsAreClean(codec, fields[..|fields| - 1], depth, strict);
      assert strict ==> ExaminedField(codec, last, depth);
      if !IsAudio(last.key) && !IsCredential(last.key) { SanitizedJsonIsClean(codec, last.value, depth + 1, strict); }
      ReplacementIsClean(codec, depth + 1, strict);
      hide CleanJson, IsAudio, IsCredential;
    }
  }

  lemma {:induction false} SanitizedItemsAreClean(codec: Codec, items: seq<Json>, depth: nat, strict: bool)
    requires depth <= MAX_DEPTH
    requires strict ==> forall i :: 0 <= i < |items| ==> ExaminedJson(codec, items[i], depth + 1)
    ensures var clean := SanitizeItems(codec, items, depth);
      |clean| == |items| && forall i :: 0 <= i < |clean| ==> CleanJson(codec, clean[i], depth + 1, strict)
    decreases Budget(depth + 1), 1, |items|
  {
    if items != [] {
      SanitizedItemsAreClean(codec, items[..|items| - 1], depth, strict);
      SanitizedJsonIsClean(codec, items[|items| - 1], depth + 1, strict);
      hide CleanJson;
    }
  }

  lemma {:induction false} SanitizedValueIsClean(codec: Codec, value: Option<Value>, depth: nat, strict: bool)
    requires strict ==> ExaminedValue(codec, value, depth)
    ensures CleanValue(codec, SanitizeValue(codec, value, depth), depth, strict)
    decreases Budget(depth), 0
  {
    if value.Some? && depth <= MAX_DEPTH {
      match value.value
      case Text(text) => SanitizedStringIsClean(codec, text, depth, strict);
      case Array(items) => SanitizedValuesAreClean(codec, FirstFew(items), depth, strict);
      case Kvlist(list) => SanitizedListIsClean(codec, list, depth + 1, strict);
      case _ =>
    }
  }

  lemma {:induction false} SanitizedValuesAreClean(codec: Codec, items: seq<Option<Value>>, depth: nat, strict: bool)
    requires depth <= MAX_DEPTH
    requires strict ==> forall i :: 0 <= i < |items| ==> ExaminedValue(codec, items[i], depth + 1)
    ensures var clean := SanitizeValues(codec, items, depth);
      |clean| == |items| && forall i :: 0 <= i < |clean| ==> clean[i].Some? && CleanValue(codec, clean[i].value, depth + 1, strict)
    decreases Budget(depth + 1), 1, |items|
  {
    if items != [] {
      SanitizedValuesAreClean(codec, items[..|items| - 1], depth, strict);
      SanitizedValueIsClean(codec, items[|items| - 1], depth + 1, strict);
      hide CleanValue;
    }
  }

  /** Whatever the input list, the result is clean through and through. */
  lemma {:induction false} SanitizedListIsClean(codec: Codec, attributes: AttributeList, depth: nat, strict: bool)
    requires strict ==> ExaminedList(codec, attributes, depth)
    ensures CleanList(codec, AttributesAtDepth(codec, attributes, depth), depth, strict)
    decreases Budget(depth), 0
  {
    if depth <= MAX_DEPTH {
      SanitizedAttributesAreClean(codec, Reached(FirstFew(attributes)), depth, strict);
    }
  }

  lemma {:induction false} SanitizedAttributesAreClean(codec: Codec, attributes: AttributeList, depth: nat, strict: bool)
    requires depth <= MAX_DEPTH
    requires forall i :: 0 <= i < |attributes| ==> Usable(attributes[i])
    requires strict ==> forall i :: 0 <= i < |attributes| ==> Usable(attributes[i]) && ExaminedAttribute(codec, attributes[i].value, depth)
    ensures var clean := SanitizeAttributes(codec, attributes, depth);
      |clean| <= |attributes| && forall i :: 0 <= i < |clean| ==> CleanAttribute(codec, clean[i], depth, strict)
    decreases Budget(depth + 1), 1, |attributes|
  {
    if attributes != [] {
      assert Usable(attributes[|attributes| - 1]);
      var last := attributes[|attributes| - 1].value;
      SanitizedAttributesAreClean(codec, attributes[..|attributes| - 1], depth, strict);
      assert strict ==> ExaminedAttribute(codec, last, depth);
      if !IsAudio(last.key) && !IsCredential(last.key) { SanitizedValueIsClean(codec, last.value, depth + 1, strict); }
      ReplacementIsClean(codec, depth + 1, strict);
      hide CleanValue, IsAudio, IsCredential;
    }
  }

  // --- What the result keeps -----------------------------------------------

  function KeysOf(attributes: AttributeList): seq<string> {
    if attributes == [] then []
    else
      var last := attributes[|attributes| - 1];
      KeysOf(attributes[..|attributes| - 1]) + (if last.Some? then [last.value.key] else [])
  }

  function WithoutAudio(keys: seq<string>): seq<string> {
    if keys == [] then []
    else
      var last := keys[|keys| - 1];
      WithoutAudio(keys[..|keys| - 1]) + (if IsAudio(last) then [] else [last])
  }

  lemma {:induction false} WithoutAudioAppends(keys: seq<string>, key: string)
    ensures WithoutAudio(keys + [key]) == WithoutAudio(keys) + if IsAudio(key) then [] else [key]
  {
    assert (keys + [key])[..|keys|] == keys;
  }

  /** Apart from audio keys, no attribute the loop reaches is lost, reordered or renamed. */
  lemma {:induction false} OtherKeysSurvive(codec: Codec, attributes: AttributeList, depth: nat)
    requires depth <= MAX_DEPTH
    requires forall i :: 0 <= i < |attributes| ==> Usable(attributes[i])
    ensures KeysOf(SanitizeAttributes(codec, attributes, depth)) == WithoutAudio(KeysOf(attributes))
    decreases |attributes|
  {
    if attributes != [] {
      var front, last := attributes[..|attributes| - 1], attributes[|attributes| - 1];
      assert Usable(last);
      OtherKeysSurvive(codec, front, depth);
      WithoutAudioAppends(KeysOf(front), last.value.key);
      hide IsAudio, IsCredential, SanitizeValue;
      var clean := SanitizeAttributes(codec, front, depth);
      var kept := SanitizeAttributes(codec, attributes, depth);
      if IsAudio(last.value.key) {
        assert kept == clean;
      } else {
        assert kept[..|kept| - 1] == clean;
        assert kept[|kept| - 1].value.key == last.value.key;
      }
    }
  }

  // --- How deep the result nests -------------------------------------------

  /** The depth a value spends on what is inside it: an array costs 1, a key-value list 2 if it has entries. */
  function Nesting(value: Value): nat {
    match value
    case Array(items) => 1 + ItemNesting(items)
    case Kvlist(list) => 1 + ListNesting(list)
    case _ => 0
  }

  function ItemNesting(items: seq<Option<Value>>): nat {
    if items == [] then 0
    else Max(OneNesting(items[0]), ItemNesting(items[1..]))
  }

  function OneNesting(item: Option<Value>): nat {
    match item
    case Some(value) => Nesting(value)
    case None => 0
  }

  function ListNesting(list: AttributeList): nat {
    if list == [] then 0
    else Max(AttributeNesting(list[0]), ListNesting(list[1..]))
  }

  function AttributeNesting(attribute: Option<KeyValue>): nat {
    match attribute
    case Some(KeyValue(_, Some(value))) => 1 + Nesting(value)
    case _ => 0
  }

  function JsonNesting(value: Json): nat {
    match value
    case Obj(fields) => 1 + FieldNesting(fields)
    case Arr(items) => 1 + ElementNesting(items)
    case _ => 0
  }

  function FieldNesting(fields: seq<Field>): nat {
    if fields == [] then 0
    else
      var Field(_, value) := fields[0];
      Max(JsonNesting(value), FieldNesting(fields[1..]))
  }

  function ElementNesting(items: seq<Json>): nat {
    if items == [] then 0 else Max(JsonNesting(items[0]), ElementNesting(items[1..]))
  }

  lemma {:induction false} CleanValueNests(codec: Codec, value: Value, depth: nat)
    requires depth <= MAX_DEPTH + 1 && CleanValue(codec, value, depth, false)
    ensures Nesting(value) <= MAX_DEPTH + 1 - depth
    decreases Budget(depth), 0
  {
    hide CleanText, IsAudio, IsCredential;
    match value
    case Array(items) => if depth <= MAX_DEPTH { CleanItemsNest(codec, items, depth + 1); }
    case Kvlist(list) => if depth <= MAX_DEPTH { CleanListNests(codec, list, depth + 1); }
    case _ =>
  }

  lemma {:induction false} CleanItemsNest(codec: Codec, items: seq<Option<Value>>, depth: nat)
    requires depth <= MAX_DEPTH + 1
    requires forall i :: 0 <= i < |items| ==> items[i].Some? && CleanValue(codec, items[i].value, depth, false)
    ensures ItemNesting(items) <= MAX_DEPTH + 1 - depth
    decreases Budget(depth), 1, |items|
  {
    hide CleanValue;
    if items != [] {
      CleanValueNests(codec, items[0].value, depth);
      CleanItemsNest(codec, items[1..], depth);
    }
  }

  lemma {:induction false} CleanListNests(codec: Codec, list: AttributeList, depth: nat)
    requires depth <= MAX_DEPTH + 1 && CleanList(codec, list, depth, false)
    ensures ListNesting(list) <= MAX_DEPTH + 1 - depth
    decreases Budget(depth), 1, |list|
  {
    hide CleanValue, IsAudio, IsCredential;
    if list != [] {
      assert CleanAttribute(codec, list[0], depth, false);
      CleanValueNests(codec, list[0].value.value.value, depth + 1);
      CleanListNests(codec, list[1..], depth);
    }
  }

  lemma {:induction false} CleanJsonNests(codec: Codec, value: Json, depth: nat)
    requires depth <= MAX_DEPTH + 1 && CleanJson(codec, value, depth, false)
    ensures JsonNesting(value) <= MAX_DEPTH + 1 - depth
    decreases Budget(depth), 0
  {
    hide CleanText, IsAudio, IsCredential;
    match value
    case Obj(fields) => if depth <= MAX_DEPTH { CleanFieldsNest(codec, fields, depth + 1); }
    case Arr(items) => if depth <= MAX_DEPTH { CleanElementsNest(codec, items, depth + 1); }
    case _ =>
  }

  lemma {:induction false} CleanFieldsNest(codec: Codec, fields: seq<Field>, depth: nat)
    requires depth <= MAX_DEPTH + 1
    requires forall i :: 0 <= i < |fields| ==> CleanJson(codec, fields[i].value, depth, false)
    ensures FieldNesting(fields) <= MAX_DEPTH + 1 - depth
    decreases Budget(depth), 1, |fields|
  {
    hide CleanJson;
    if fields != [] {
      CleanJsonNests(codec, fields[0].value, depth);
      CleanFieldsNest(codec, fields[1..], depth);
    }
  }

  lemma {:induction false} CleanElementsNest(codec: Codec, items: seq<Json>, depth: nat)
    requires depth <= MAX_DEPTH + 1
    requires forall i :: 0 <= i < |items| ==> CleanJson(codec, items[i], depth, false)
    ensures ElementNesting(items) <= MAX_DEPTH + 1 - depth
    decreases Budget(depth), 1, |items|
  {
    hide CleanJson;
    if items != [] {
      CleanJsonNests(codec, items[0], depth);
      CleanElementsNest(codec, items[1..], depth);
    }
  }

  /** Whatever nesting comes in, redacted attributes nest within the depth budget, as does JSON found inside a string. */
  lemma RedactedNestsWithinBudget(codec: Codec, attributes: AttributeList, value: Json, depth: nat)
    requires depth <= MAX_DEPTH
    ensures ListNesting(AttributesAtDepth(codec, attributes, 0)) <= MAX_DEPTH + 1
    ensures forall i :: 0 <= i < |AttributesAtDepth(codec, attributes, 0)| ==>
      var a := AttributesAtDepth(codec, attributes, 0)[i];
      Usable(a) && Nesting(a.value.value.value) <= MAX_DEPTH
    ensures JsonNesting(SanitizeJson(codec, value, depth + 1)) <= MAX_DEPTH - depth
  {
    hide CleanValue, IsAudio, IsCredential, SanitizeJson, CleanJson, AttributesAtDepth;
    var list := AttributesAtDepth(codec, attributes, 0);
    SanitizedListIsClean(codec, attributes, 0, false);
    CleanListNests(codec, list, 0);
    forall i | 0 <= i < |list| ensures Usable(list[i]) && Nesting(list[i].value.value.value) <= MAX_DEPTH {
      assert CleanAttribute(codec, list[i], 0, false);
      CleanValueNests(codec, list[i].value.value.value, 1);
    }
    SanitizedJsonIsClean(codec, value, depth + 1, false);
    CleanJsonNests(codec, SanitizeJson(codec, value, depth + 1), depth + 1);
  }
}
