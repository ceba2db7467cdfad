/**
 Where redaction stops looking (redact.go, `sanitizeString` and `sanitizeJSON`):
 the exact condition under which JSON inside a string is redacted, and inputs
 whose embedded credentials pass for want of depth or size.
 */
module RedactionLimits {
  import opened Prelude
  import opened Attributes
  import opened Json
  import opened Redaction
  import opened Text

  /**
   JSON inside a string is redacted exactly if depth and size still allow looking;
   otherwise the text passes unchanged.
   */
  lemma EmbeddedJsonIsRedactedIff(codec: Codec, text: string, json: Json, depth: nat)
    requires !Caught(codec, text) && LooksLikeJson(text) && codec.parse(TrimSpace(text)) == Some(json)
    ensures SanitizeString(codec, text, depth) ==
      if depth <= 12 && Utf8Length(TrimSpace(text)) <= 1_048_576
      then codec.render(SanitizeJson(codec, json, depth + 1))
      else text
    ensures NotExamined(codec, text, depth) <==> depth > 12 || Utf8Length(TrimSpace(text)) > 1_048_576
  {
    hide SanitizeJson, IsPrivateKey, IsBearer, TrimSpace, Utf8Length;
  }

  // --- Texts that are not caught as a whole --------------------------------

  lemma TrimsNothing(s: string)
    requires s != "" && !IsSpace(s[0]) && !IsSpace(s[|s| - 1])
    ensures TrimSpace(s) == s
  {
    hide IsSpace;
  }

  lemma {:induction false} ContainsNeedsLetters(s: string, part: string, c: char)
    requires c in part && c !in s
    ensures !Contains(s, part)
  {
    PrefixHasLetters(s, part, c);
    if s != "" { ContainsNeedsLetters(s[1..], part, c); }
  }

  lemma PrefixHasLetters(s: string, part: string, c: char)
    requires c in part
    ensures HasPrefix(s, part) ==> c in s
  {
    var i :| 0 <= i < |part| && part[i] == c;
    assert HasPrefix(s, part) ==> s[i] == part[i];
  }

  lemma {:induction false} ContainsNeedsRoom(s: string, part: string)
    requires |s| < |part|
    ensures !Contains(s, part)
  {
    if s != "" { ContainsNeedsRoom(s[1..], part); }
  }

  lemma LoweringAddsNoDash(s: string)
    requires '-' !in s
    ensures '-' !in ToLower(s)
  {
    forall i | 0 <= i < |s| ensures ToLower(s)[i] != '-' {
      assert s[i] in s;
    }
  }

  lemma LowerCharKeepsSpace(c: char)
    ensures IsSpace(LowerChar(c)) <==> IsSpace(c)
  {
  }

  /** Object or array text without a dash is neither a key nor a bearer token. */
  lemma PlainJsonIsNotCaught(codec: Codec, text: string)
    requires text != "" && text[0] in {'{', '['} && !IsSpace(text[|text| - 1]) && '-' !in text
    requires codec.dataUrl(text).None?
    ensures !Caught(codec, text) && TrimSpace(text) == text && LooksLikeJson(text)
  {
    TrimsNothing(text);
    var lower := ToLower(text);
    LoweringAddsNoDash(text);
    ContainsNeedsLetters(lower, "-----begin ", '-');
    LowerCharKeepsSpace(text[0]);
    LowerCharKeepsSpace(text[|text| - 1]);
    assert lower[0] == text[0];
    TrimsNothing(lower);
    assert "bearer "[0] == 'b';
    hide TrimSpace, ToLower, Contains;
  }

  lemma {:induction false} Utf8LengthBounds(s: string)
    ensures |s| <= Utf8Length(s) <= 4 * |s|
  {
    if s != "" { Utf8LengthBounds(s[1..]); }
  }

  lemma {:induction false} NormalizingShortens(key: string)
    ensures |NormalizedKey(key)| <= |key|
  {
    if key != "" { NormalizingShortens(key[1..]); }
  }

  lemma ShortKeyIsOrdinary(key: string)
    requires |key| < 4
    ensures !IsAudio(key) && !IsCredential(key)
  {
    NormalizingShortens(key);
    var normalized := NormalizedKey(key);
    forall i | 0 <= i < |AUDIO_TERMS| ensures !Contains(normalized, AUDIO_TERMS[i]) {
      ContainsNeedsRoom(normalized, AUDIO_TERMS[i]);
    }
    forall i | 0 <= i < |CREDENTIAL_TERMS| ensures !Contains(normalized, CREDENTIAL_TERMS[i]) {
      ContainsNeedsRoom(normalized, CREDENTIAL_TERMS[i]);
    }
    hide Contains, NormalizedKey;
  }

  // --- Too deep ------------------------------------------------------------

  /** `n` arrays around a value. */
  function Wrapped(value: Json, n: nat): Json {
    if n == 0 then value else Arr([Wrapped(value, n - 1)])
  }

  /** Within the depth budget arrays pass through, and the text inside them is redacted at its own depth. */
  lemma {:induction false} TextInArrays(codec: Codec, text: string, n: nat, depth: nat)
    requires depth + n <= MAX_DEPTH
    ensures SanitizeJson(codec, Wrapped(Str(text), n), depth) == Wrapped(Str(SanitizeString(codec, text, depth + n + 1)), n)
  {
    hide SanitizeString;
    if n > 0 {
      var items := [Wrapped(Str(text), n - 1)];
      TextInArrays(codec, text, n - 1, depth + 1);
      OneItem(codec, items[0], depth);
    }
  }

  lemma OneItem(codec: Codec, item: Json, depth: nat)
    requires depth <= MAX_DEPTH
    ensures SanitizeJson(codec, Arr([item]), depth) == Arr([SanitizeJson(codec, item, depth + 1)])
  {
    var items := [item];
    assert items[..0] == [] && FirstFew(items) == items;
    assert SanitizeItems(codec, items, depth) == SanitizeItems(codec, [], depth) + [SanitizeJson(codec, item, depth + 1)];
  }

  const CREDENTIAL := "{\"password\":\"x\"}"
  const CREDENTIAL_JSON := Obj([Field("password", Str("x"))])
  const NESTED := "[[[[[[[[[[\"{\\\"password\\\":\\\"x\\\"}\"]]]]]]]]]]"
  const KEY := "k"

  /** A codec that reads the two texts as the JSON they are. */
  ghost predicate ReadsNested(codec: Codec) {
    && codec.dataUrl(CREDENTIAL).None? && codec.dataUrl(NESTED).None?
    && codec.parse(CREDENTIAL) == Some(CREDENTIAL_JSON)
    && codec.parse(NESTED) == Some(Wrapped(Str(CREDENTIAL), 10))
  }

  lemma {:induction false} LowerLettersStay(key: string)
    requires forall i :: 0 <= i < |key| ==> 'a' <= key[i] <= 'z'
    ensures NormalizedKey(key) == key
  {
    if key != "" { LowerLettersStay(key[1..]); }
  }

  const PASSWORD := "password"

  lemma PasswordIsCredential()
    ensures IsCredential(PASSWORD) && !IsAudio(PASSWORD)
  {
    LowerLettersStay(PASSWORD);
    PasswordIsATerm();
    PasswordIsNoAudio();
    hide NormalizedKey, ContainsTerm;
  }

  lemma PasswordIsATerm()
    ensures ContainsTerm(PASSWORD, CREDENTIAL_TERMS)
  {
    assert CREDENTIAL_TERMS[4] == PASSWORD && HasPrefix(PASSWORD, PASSWORD);
  }

  lemma PasswordIsNoAudio()
    ensures !ContainsTerm(PASSWORD, AUDIO_TERMS)
  {
    hide Contains;
    forall i | 0 <= i < |AUDIO_TERMS| ensures !Contains(PASSWORD, AUDIO_TERMS[i]) {
      AudioTermsHaveAnI(i);
      ContainsNeedsLetters(PASSWORD, AUDIO_TERMS[i], 'i');
    }
  }

  lemma AudioTermsHaveAnI(i: nat)
    requires i < |AUDIO_TERMS|
    ensures 'i' in AUDIO_TERMS[i]
  {
    assert "audiobytes"[3] == 'i' && "audiobase64"[3] == 'i' && "rawaudio"[6] == 'i';
    assert "microphonebytes"[1] == 'i' && "audiofilepath"[3] == 'i';
  }

  lemma SingleAttribute(codec: Codec, key: string, text: string)
    requires !IsAudio(key) && !IsCredential(key)
    ensures AttributesAtDepth(codec, [Attribute(key, Value.Text(text))], 0)
      == [Attribute(key, Value.Text(SanitizeString(codec, text, 1)))]
  {
    hide SanitizeString, IsAudio, IsCredential;
    var list := [Attribute(key, Value.Text(text))];
    assert FirstFew(list) == list;
    assert list[1..] == [];
    assert Reached(list) == list;
    assert list[..0] == [];
  }

  lemma NestedLetters()
    ensures 0 < |NESTED| < 100 && NESTED[0] == '[' && NESTED[|NESTED| - 1] == ']' && '-' !in NESTED
    ensures 0 < |CREDENTIAL| < 100 && CREDENTIAL[0] == '{' && CREDENTIAL[|CREDENTIAL| - 1] == '}' && '-' !in CREDENTIAL
  {
  }

  /** A short object or array text that nothing catches as a whole. */
  ghost predicate PlainShort(codec: Codec, text: string) {
    && 0 < |text| < 100 && text[0] in {'{', '['} && !IsSpace(text[|text| - 1]) && '-' !in text
    && codec.dataUrl(text).None?
  }

  lemma PlainShortIsExaminable(codec: Codec, text: string)
    requires PlainShort(codec, text)
    ensures !Caught(codec, text) && LooksLikeJson(text) && TrimSpace(text) == text && Examinable(text, 1)
  {
    Utf8LengthBounds(text);
    PlainJsonIsNotCaught(codec, text);
    hide Caught, LooksLikeJson, TrimSpace, Utf8Length;
  }

  lemma NestedArePlain(codec: Codec)
    requires ReadsNested(codec)
    ensures PlainShort(codec, NESTED) && PlainShort(codec, CREDENTIAL)
  {
    NestedLetters();
  }

  lemma NestedTexts(codec: Codec)
    requires ReadsNested(codec)
    ensures !Caught(codec, NESTED) && LooksLikeJson(NESTED) && TrimSpace(NESTED) == NESTED && Examinable(NESTED, 1)
    ensures !Caught(codec, CREDENTIAL) && LooksLikeJson(CREDENTIAL) && TrimSpace(CREDENTIAL) == CREDENTIAL
    ensures Examinable(CREDENTIAL, 1)
  {
    hide *;
    NestedArePlain(codec);
    PlainShortIsExaminable(codec, NESTED);
    PlainShortIsExaminable(codec, CREDENTIAL);
  }

  /**
   The password is redacted where its JSON is the value of an attribute, and kept
   where the same JSON is a string ten arrays deep.
   */
  lemma NestedCredentialIsKept(codec: Codec)
    requires ReadsNested(codec)
    ensures AttributesAtDepth(codec, [Attribute(KEY, Value.Text(CREDENTIAL))], 0)
      == [Attribute(KEY, Value.Text(codec.render(Obj([Field("password", Str(REPLACEMENT))]))))]
    ensures AttributesAtDepth(codec, [Attribute(KEY, Value.Text(NESTED))], 0)
      == [Attribute(KEY, Value.Text(codec.render(Wrapped(Str(CREDENTIAL), 10))))]
    ensures NotExamined(codec, CREDENTIAL, 13)
  {
    ShortKeyIsOrdinary(KEY);
    SingleAttribute(codec, KEY, CREDENTIAL);
    SingleAttribute(codec, KEY, NESTED);
    NestedTexts(codec);
    EmbeddedJsonIsRedactedIff(codec, CREDENTIAL, CREDENTIAL_JSON, 1);
    EmbeddedJsonIsRedactedIff(codec, CREDENTIAL, CREDENTIAL_JSON, 13);
    EmbeddedJsonIsRedactedIff(codec, NESTED, Wrapped(Str(CREDENTIAL), 10), 1);
    hide SanitizeString, AttributesAtDepth, Caught, LooksLikeJson, TrimSpace, Utf8Length, IsAudio, IsCredential, Wrapped;
    TextInArrays(codec, CREDENTIAL, 10, 2);
    PasswordIsRedacted(codec);
  }

  lemma PasswordIsRedacted(codec: Codec)
    ensures SanitizeJson(codec, CREDENTIAL_JSON, 2) == Obj([Field("password", Str(REPLACEMENT))])
  {
    PasswordIsCredential();
    hide IsAudio, IsCredential;
    var fields := [Field("password", Str("x"))];
    assert FirstFew(fields) == fields && fields[..0] == [];
  }

  // --- Too large -----------------------------------------------------------

  /** An object text with a password longer than the size that is looked into. */
  function Oversized(): string {
    "{\"password\":\"" + seq(MAX_EMBEDDED, i => 'x') + "\"}"
  }

  /** Embedded JSON above the size limit is kept as it is, credentials included. */
  lemma OversizedCredentialIsKept(codec: Codec, json: Json)
    requires codec.dataUrl(Oversized()).None? && codec.parse(Oversized()) == Some(json)
    ensures AttributesAtDepth(codec, [Attribute(KEY, Value.Text(Oversized()))], 0) == [Attribute(KEY, Value.Text(Oversized()))]
    ensures NotExamined(codec, Oversized(), 1)
  {
    OversizedText();
    ShortKeyIsOrdinary(KEY);
    hide Oversized;
    SingleAttribute(codec, KEY, Oversized());
    LargeTextIsKept(codec, Oversized(), json);
    hide *;
  }

  lemma LargeTextIsKept(codec: Codec, text: string, json: Json)
    requires |text| > MAX_EMBEDDED && text[0] in {'{', '['} && !IsSpace(text[|text| - 1]) && '-' !in text
    requires codec.dataUrl(text).None? && codec.parse(text) == Some(json)
    ensures SanitizeString(codec, text, 1) == text && NotExamined(codec, text, 1)
  {
    Utf8LengthBounds(text);
    PlainJsonIsNotCaught(codec, text);
    EmbeddedJsonIsRedactedIff(codec, text, json, 1);
    hide SanitizeString, Caught, LooksLikeJson, TrimSpace, Utf8Length;
  }

  lemma OversizedText()
    ensures var text := Oversized();
      |text| > MAX_EMBEDDED && text[0] == '{' && text[|text| - 1] == '}' && '-' !in text
  {
    var head, body, tail := "{\"password\":\"", seq(MAX_EMBEDDED, i => 'x'), "\"}";
    assert Oversized() == head + body + tail;
    assert '-' !in head && '-' !in body && '-' !in tail;
  }

  // --- Attributes that are not reached -------------------------------------

  lemma {:induction false} KeysConcat(a: AttributeList, b: AttributeList)
    ensures KeysOf(a + b) == KeysOf(a) + KeysOf(b)
  {
    if b == [] {
      assert a + b == a;
    } else {
      assert (a + b)[..|a + b| - 1] == a + b[..|b| - 1];
      KeysConcat(a, b[..|b| - 1]);
    }
  }

  lemma {:induction false} WithoutAudioConcat(a: seq<string>, b: seq<string>)
    ensures WithoutAudio(a + b) == WithoutAudio(a) + WithoutAudio(b)
  {
    hide IsAudio;
    if b == [] {
      assert a + b == a;
    } else {
      assert (a + b)[..|a + b| - 1] == a + b[..|b| - 1];
      WithoutAudioConcat(a, b[..|b| - 1]);
    }
  }

  /** How many attributes the loop gets to: it stops at one that is nil or has no value, and after the 256th. */
  function ReachedCount(attributes: AttributeList): (n: nat)
    ensures n <= |attributes|
  {
    |Reached(FirstFew(attributes))|
  }

  lemma ReachedIsFront(attributes: AttributeList)
    ensures Reached(FirstFew(attributes)) == attributes[..ReachedCount(attributes)]
  {
    ReachedIsPrefix(FirstFew(attributes));
  }

  /**
   Every key but those of audio survives exactly if nothing but audio lies behind
   the first attribute that is nil or has no value, or behind the 256th.
   */
  lemma KeysSurviveIff(codec: Codec, attributes: AttributeList, depth: nat)
    requires depth <= MAX_DEPTH
    ensures KeysOf(AttributesAtDepth(codec, attributes, depth)) == WithoutAudio(KeysOf(attributes)) <==>
      WithoutAudio(KeysOf(attributes[ReachedCount(attributes)..])) == []
    ensures KeysOf(AttributesAtDepth(codec, attributes, depth)) == WithoutAudio(KeysOf(attributes[..ReachedCount(attributes)]))
  {
    var n := ReachedCount(attributes);
    ReachedIsFront(attributes);
    OtherKeysSurvive(codec, Reached(FirstFew(attributes)), depth);
    assert attributes == attributes[..n] + attributes[n..];
    KeysConcat(attributes[..n], attributes[n..]);
    WithoutAudioConcat(KeysOf(attributes[..n]), KeysOf(attributes[n..]));
    hide WithoutAudio, KeysOf, Reached, SanitizeAttributes;
  }

  const VALUELESS: AttributeList := [Attribute("a", Flag(true)), Some(KeyValue("b", None)), Attribute("c", Flag(true))]

  /** An attribute without a value takes with it every attribute behind it. */
  lemma ValuelessAttributeCutsList(codec: Codec)
    ensures KeysOf(AttributesAtDepth(codec, VALUELESS, 0)) == ["a"]
    ensures WithoutAudio(KeysOf(VALUELESS)) == ["a", "b", "c"]
  {
    hide *;
    KeysSurviveIff(codec, VALUELESS, 0);
    ValuelessReached();
    ValuelessKeys();
    ShortKeysStay(["a", "b", "c"]);
    ShortKeysStay(["a"]);
  }

  lemma ValuelessKeys()
    ensures KeysOf(VALUELESS[..1]) == ["a"] && KeysOf(VALUELESS) == ["a", "b", "c"]
  {
    var a, b, c := VALUELESS[0], VALUELESS[1], VALUELESS[2];
    assert VALUELESS[..1] == [a] && VALUELESS == [a] + [b] + [c];
    KeyOfOne(a);
    KeyOfOne(b);
    KeyOfOne(c);
    hide KeysOf;
    KeysConcat([a] + [b], [c]);
    KeysConcat([a], [b]);
  }

  lemma KeyOfOne(attribute: Option<KeyValue>)
    ensures KeysOf([attribute]) == if attribute.Some? then [attribute.value.key] else []
  {
    assert [attribute][..0] == [];
    assert KeysOf([attribute][..0]) == [];
  }

  lemma ShortKeysStay(keys: seq<string>)
    requires forall i :: 0 <= i < |keys| ==> |keys[i]| < 4
    ensures WithoutAudio(keys) == keys
  {
    hide *;
    forall i | 0 <= i < |keys| ensures !IsAudio(keys[i]) { ShortKeyIsOrdinary(keys[i]); }
    OrdinaryKeysStay(keys);
  }

  lemma {:induction false} OrdinaryKeysStay(keys: seq<string>)
    requires forall i :: 0 <= i < |keys| ==> !IsAudio(keys[i])
    ensures WithoutAudio(keys) == keys
    decreases |keys|
  {
    hide IsAudio;
    if keys != [] { OrdinaryKeysStay(keys[..|keys| - 1]); }
  }

  lemma ValuelessReached()
    ensures ReachedCount(VALUELESS) == 1
  {
    assert FirstFew(VALUELESS) == VALUELESS;
    assert Reached(VALUELESS[1..]) == [];
  }
}
