/**
 Which keys and texts redaction recognises (redact.go), in terms of the characters
 they are written in: the terms by name, each in any mix of upper and lower case
 and with anything but letters and digits in between, and what becomes of an
 attribute or a JSON field under such a key.
 */
module RedactionTerms {
  import opened Prelude
  import opened Attributes
  import opened Json
  import Keys
  import opened Redaction
  import opened Text

  /** `c` is `letter` in lower or upper case; two code points beyond ASCII lower to `i` and `k` as well. */
  predicate Writes(c: char, letter: char) {
    || c == letter
    || ('a' <= letter <= 'z' && c as int == letter as int - 32)
    || (letter == 'i' && c == '\U{0130}')
    || (letter == 'k' && c == '\U{212A}')
  }

  /** Neither letter nor digit. */
  predicate Separates(c: char) {
    !('a' <= c <= 'z') && !('A' <= c <= 'Z') && !('0' <= c <= '9') && c != '\U{0130}' && c != '\U{212A}'
  }

  /** The letters and digits of `text` are those of `term`, in order and in any case. */
  predicate Spells(text: string, term: string)
    decreases |text|
  {
    if text == "" then term == ""
    else if Separates(text[0]) then Spells(text[1..], term)
    else term != "" && Writes(text[0], term[0]) && Spells(text[1..], term[1..])
  }

  /** A part of the key spells the term. */
  ghost predicate Names(key: string, term: string) {
    exists i, j :: 0 <= i <= j <= |key| && Spells(key[i..j], term)
  }

  ghost predicate NamesCredential(key: string) {
    || Names(key, "authorization") || Names(key, "cookie") || Names(key, "setcookie") || Names(key, "csrf")
    || Names(key, "password") || Names(key, "passwd") || Names(key, "apikey") || Names(key, "accesskey")
    || Names(key, "secretkey") || Names(key, "accesstoken") || Names(key, "refreshtoken") || Names(key, "sessiontoken")
    || Names(key, "clientsecret") || Names(key, "privatekey") || Names(key, "langfusepublickey")
    || Names(key, "langfusesecretkey")
  }

  ghost predicate NamesAudio(key: string) {
    || Names(key, "audiobytes") || Names(key, "audiobase64") || Names(key, "rawaudio")
    || Names(key, "microphonebytes") || Names(key, "audiofilepath")
  }

  // --- Keys ----------------------------------------------------------------

  predicate PlainLetter(c: char) {
    'a' <= c <= 'z' || '0' <= c <= '9'
  }

  /** Lower-case letters and digits only, as the terms are. */
  predicate Plain(term: string) {
    forall i :: 0 <= i < |term| ==> PlainLetter(term[i])
  }

  lemma CharacterSpelled(c: char, letter: char)
    ensures Separates(c) <==> !PlainLetter(LowerChar(c))
    ensures PlainLetter(letter) && !Separates(c) ==> (Writes(c, letter) <==> LowerChar(c) == letter)
  {
  }

  lemma NormalizedHead(text: string)
    requires text != ""
    ensures NormalizedKey(text) == (if PlainLetter(LowerChar(text[0])) then [LowerChar(text[0])] else []) + NormalizedKey(text[1..])
  {
    hide LowerChar;
  }

  lemma {:induction false} SpellsIffNormalized(text: string, term: string)
    requires Plain(term)
    ensures Spells(text, term) <==> NormalizedKey(text) == term
    decreases |text|
  {
    if text != "" {
      NormalizedHead(text);
      CharacterSpelled(text[0], if term != "" then term[0] else 'a');
    }
    hide Writes, Separates, PlainLetter, LowerChar, NormalizedKey;
    if text != "" {
      if Separates(text[0]) {
        SpellsIffNormalized(text[1..], term);
      } else if term != "" {
        SpellsIffNormalized(text[1..], term[1..]);
        assert term == [term[0]] + term[1..];
      }
    }
  }

  lemma {:induction false} NormalizedConcat(a: string, b: string)
    ensures NormalizedKey(a + b) == NormalizedKey(a) + NormalizedKey(b)
    decreases |a|
  {
    if a == "" {
      assert a + b == b;
    } else {
      assert (a + b)[1..] == a[1..] + b;
      NormalizedHead(a);
      NormalizedHead(a + b);
      hide PlainLetter, LowerChar, NormalizedKey;
      NormalizedConcat(a[1..], b);
    }
  }

  /** Every prefix of a normalised key is the normalised form of a prefix of the key. */
  lemma {:induction false} NormalizedPrefix(key: string, n: nat) returns (i: nat)
    requires n <= |NormalizedKey(key)|
    ensures i <= |key| && NormalizedKey(key[..i]) == NormalizedKey(key)[..n]
  {
    if n == 0 {
      i := 0;
    } else {
      var own := NormalizedKey([key[0]]);
      NormalizedConcat([key[0]], key[1..]);
      assert key == [key[0]] + key[1..];
      var rest := NormalizedPrefix(key[1..], n - |own|);
      i := 1 + rest;
      assert key[..i] == [key[0]] + key[1..][..rest];
      NormalizedConcat([key[0]], key[1..][..rest]);
    }
  }

  predicate OccursAt(s: string, part: string, i: int) {
    0 <= i <= |s| - |part| && s[i..i + |part|] == part
  }

  lemma {:induction false} ContainsIff(s: string, part: string)
    ensures Contains(s, part) <==> exists i :: OccursAt(s, part, i)
    decreases |s|
  {
    if HasPrefix(s, part) {
      assert OccursAt(s, part, 0);
    } else if s != "" {
      ContainsIff(s[1..], part);
      forall i ensures OccursAt(s, part, i + 1) <==> OccursAt(s[1..], part, i) || (i == -1 && HasPrefix(s, part)) {
        assert 0 <= i <= |s[1..]| - |part| ==> s[1..][i..i + |part|] == s[i + 1..i + 1 + |part|];
      }
      forall i ensures OccursAt(s, part, i) ==> OccursAt(s[1..], part, i - 1) {
        assert OccursAt(s, part, i - 1 + 1) <==> OccursAt(s[1..], part, i - 1);
      }
    } else {
      forall i ensures !OccursAt(s, part, i) { }
    }
  }

  lemma NamedIsContained(key: string, term: string, i: nat, j: nat)
    requires Plain(term) && i <= j <= |key| && Spells(key[i..j], term)
    ensures Contains(NormalizedKey(key), term)
  {
    SpellsIffNormalized(key[i..j], term);
    assert key == key[..i] + (key[i..j] + key[j..]);
    NormalizedConcat(key[..i], key[i..j] + key[j..]);
    NormalizedConcat(key[i..j], key[j..]);
    ContainsIff(NormalizedKey(key), term);
    Surrounded(NormalizedKey(key[..i]), term, NormalizedKey(key[j..]));
    hide *;
  }

  lemma Surrounded(before: string, part: string, after: string)
    ensures OccursAt(before + (part + after), part, |before|)
  {
  }

  lemma ContainedIsNamed(key: string, term: string)
    requires Plain(term) && Contains(NormalizedKey(key), term)
    ensures Names(key, term)
  {
    hide Plain, Spells, NormalizedKey, Contains;
    var normalized := NormalizedKey(key);
    ContainsIff(normalized, term);
    var n :| OccursAt(normalized, term, n);
    var j := NormalizedPrefix(key, n + |term|);
    var i := NormalizedPrefix(key[..j], n);
    assert key[..j] == key[..j][..i] + key[i..j];
    NormalizedConcat(key[..j][..i], key[i..j]);
    assert normalized[..n + |term|] == normalized[..n + |term|][..n] + term;
    SpellsIffNormalized(key[i..j], term);
  }

  lemma NamesIffContains(key: string, term: string)
    requires Plain(term)
    ensures Names(key, term) <==> Contains(NormalizedKey(key), term)
  {
    hide Plain, Spells, NormalizedKey, Contains;
    if Names(key, term) {
      var i, j :| 0 <= i <= j <= |key| && Spells(key[i..j], term);
      NamedIsContained(key, term, i, j);
    }
    if Contains(NormalizedKey(key), term) { ContainedIsNamed(key, term); }
  }

  lemma AudioTermIsPlain(i: nat)
    requires i < |AUDIO_TERMS|
    ensures Plain(AUDIO_TERMS[i])
  {
  }

  lemma CredentialTermIsPlain(i: nat)
    requires i < |CREDENTIAL_TERMS|
    ensures Plain(CREDENTIAL_TERMS[i])
  {
  }

  lemma TermIffNamed(key: string, terms: seq<string>)
    requires forall i :: 0 <= i < |terms| ==> Plain(terms[i])
    ensures ContainsTerm(NormalizedKey(key), terms) <==> exists i :: 0 <= i < |terms| && Names(key, terms[i])
  {
    hide Plain, Names, NormalizedKey, Contains;
    forall i | 0 <= i < |terms| ensures Names(key, terms[i]) <==> Contains(NormalizedKey(key), terms[i]) {
      NamesIffContains(key, terms[i]);
    }
  }

  /** A key is taken for audio exactly if a part of it spells one of the five audio terms. */
  lemma AudioIffNamed(key: string)
    ensures IsAudio(key) <==> NamesAudio(key)
  {
    hide Names, NormalizedKey, Contains, Plain, ContainsTerm;
    forall i | 0 <= i < |AUDIO_TERMS| ensures Plain(AUDIO_TERMS[i]) { AudioTermIsPlain(i); }
    TermIffNamed(key, AUDIO_TERMS);
    var terms := AUDIO_TERMS;
    assert NamesAudio(key) ==> (|| Names(key, terms[0]) || Names(key, terms[1]) || Names(key, terms[2])
      || Names(key, terms[3]) || Names(key, terms[4]));
  }

  /** A key is taken for a credential exactly if a part of it spells one of the sixteen credential terms. */
  lemma CredentialIffNamed(key: string)
    ensures IsCredential(key) <==> NamesCredential(key)
  {
    hide Names, NormalizedKey, Contains, Plain, ContainsTerm;
    forall i | 0 <= i < |CREDENTIAL_TERMS| ensures Plain(CREDENTIAL_TERMS[i]) { CredentialTermIsPlain(i); }
    TermIffNamed(key, CREDENTIAL_TERMS);
    var terms := CREDENTIAL_TERMS;
    assert NamesCredential(key) ==> (|| Names(key, terms[0]) || Names(key, terms[1]) || Names(key, terms[2]) || Names(key, terms[3])
      || Names(key, terms[4]) || Names(key, terms[5]) || Names(key, terms[6]) || Names(key, terms[7])
      || Names(key, terms[8]) || Names(key, terms[9]) || Names(key, terms[10]) || Names(key, terms[11])
      || Names(key, terms[12]) || Names(key, terms[13]) || Names(key, terms[14]) || Names(key, terms[15]));
  }

  // --- Attribute lists -----------------------------------------------------

  /** The loop goes past the first `n` attributes: there are that many, all with a value, and at most 256. */
  ghost predicate Passes(attributes: AttributeList, n: nat) {
    n <= |attributes| && n <= 256 && forall i :: 0 <= i < n ==> attributes[i].Some? && attributes[i].value.value.Some?
  }

  /** What becomes of one attribute. */
  ghost predicate Becomes(codec: Codec, attribute: KeyValue, depth: nat, clean: AttributeList)
    requires attribute.value.Some?
  {
    if NamesAudio(attribute.key) then clean == []
    else if NamesCredential(attribute.key) then clean == [Some(KeyValue(attribute.key, Some(Value.Text("[REDACTED]"))))]
    else clean == [Some(KeyValue(attribute.key, Some(SanitizeValue(codec, attribute.value, depth + 1))))]
  }

  lemma {:induction false} ReachedPrefix(attributes: AttributeList, n: nat)
    requires n <= |attributes| && forall i :: 0 <= i < n ==> Usable(attributes[i])
    requires n == |attributes| || !Usable(attributes[n])
    ensures Reached(attributes) == attributes[..n]
  {
    if n > 0 {
      ReachedPrefix(attributes[1..], n - 1);
      assert attributes[..n] == [attributes[0]] + attributes[1..][..n - 1];
    }
  }

  lemma PassedAreReached(attributes: AttributeList, n: nat)
    requires Passes(attributes, n)
    ensures Reached(FirstFew(attributes[..n])) == attributes[..n]
  {
    ReachedPrefix(attributes[..n], n);
    assert attributes[..n][..n] == attributes[..n];
  }

  lemma LastAttribute(codec: Codec, front: AttributeList, last: Option<KeyValue>, depth: nat) returns (clean: AttributeList)
    requires depth <= 12 && Usable(last) && forall i :: 0 <= i < |front| ==> Usable(front[i])
    ensures SanitizeAttributes(codec, front + [last], depth) == SanitizeAttributes(codec, front, depth) + clean
    ensures Becomes(codec, last.value, depth, clean)
  {
    AudioIffNamed(last.value.key);
    CredentialIffNamed(last.value.key);
    hide NamesAudio, NamesCredential, IsAudio, IsCredential, SanitizeValue;
    assert (front + [last])[..|front|] == front;
    clean := if IsAudio(last.value.key) then []
      else if IsCredential(last.value.key) then [Attribute(last.value.key, Value.Text("[REDACTED]"))]
      else [Attribute(last.value.key, SanitizeValue(codec, last.value.value, depth + 1))];
  }

  /**
   The redacted list is put together attribute by attribute, in order: one that
   names audio is dropped, one that names a credential keeps its key alone, and
   any other keeps its key and has its value redacted.
   */
  lemma EachAttribute(codec: Codec, attributes: AttributeList, n: nat, depth: nat) returns (clean: AttributeList)
    requires depth <= 12 && Passes(attributes, n + 1)
    ensures AttributesAtDepth(codec, attributes[..n + 1], depth) == AttributesAtDepth(codec, attributes[..n], depth) + clean
    ensures Becomes(codec, attributes[n].value, depth, clean)
  {
    hide NamesAudio, NamesCredential, IsAudio, IsCredential, SanitizeValue, SanitizeAttributes, Reached, Becomes;
    PassedAreReached(attributes, n);
    PassedAreReached(attributes, n + 1);
    clean := LastAttribute(codec, attributes[..n], attributes[n], depth);
    assert attributes[..n] + [attributes[n]] == attributes[..n + 1];
  }

  /** It stops at the 257th attribute, or at the first one without a value, and has nothing below level 12. */
  lemma ListStops(codec: Codec, attributes: AttributeList, n: nat, depth: nat)
    requires Passes(attributes, n)
    requires n == 256 || n == |attributes| || attributes[n].None? || attributes[n].value.value.None?
    ensures AttributesAtDepth(codec, attributes, depth) == AttributesAtDepth(codec, attributes[..n], depth)
    ensures AttributesAtDepth(codec, [], depth) == []
    ensures depth > 12 ==> AttributesAtDepth(codec, attributes, depth) == []
  {
    PassedAreReached(attributes, n);
    ReachedPrefix(FirstFew(attributes), n);
    assert FirstFew(attributes)[..n] == attributes[..n];
  }

  // --- JSON objects --------------------------------------------------------

  /** What becomes of one field. */
  ghost predicate FieldBecomes(codec: Codec, field: Field, depth: nat, clean: seq<Field>) {
    if NamesAudio(field.key) then clean == []
    else if NamesCredential(field.key) then clean == [Field(field.key, Str("[REDACTED]"))]
    else clean == [Field(field.key, SanitizeJson(codec, field.value, depth + 1))]
  }

  /** The same holds of an object, field by field in any order of visiting them. */
  lemma EachField(codec: Codec, fields: seq<Field>, n: nat, depth: nat) returns (clean: seq<Field>)
    requires depth <= 12 && n < |fields| && n < 256
    ensures SanitizeJson(codec, Obj(fields[..n]), depth).Obj?
    ensures SanitizeJson(codec, Obj(fields[..n + 1]), depth) == Obj(SanitizeJson(codec, Obj(fields[..n]), depth).fields + clean)
    ensures FieldBecomes(codec, fields[n], depth, clean)
  {
    AudioIffNamed(fields[n].key);
    CredentialIffNamed(fields[n].key);
    hide NamesAudio, NamesCredential, IsAudio, IsCredential;
    var front := fields[..n + 1];
    assert front[..n] == fields[..n] && front[n] == fields[n];
    assert SanitizeJson(codec, Obj(front), depth) == Obj(SanitizeFields(codec, front, depth));
    assert SanitizeJson(codec, Obj(fields[..n]), depth) == Obj(SanitizeFields(codec, fields[..n], depth));
    clean := SanitizeFields(codec, front, depth)[|SanitizeFields(codec, fields[..n], depth)|..];
    hide SanitizeJson;
  }

  lemma ObjectStops(codec: Codec, fields: seq<Field>, depth: nat)
    ensures depth <= 12 ==> SanitizeJson(codec, Obj([]), depth) == Obj([])
    ensures |fields| > 256 ==> SanitizeJson(codec, Obj(fields), depth) == SanitizeJson(codec, Obj(fields[..256]), depth)
    ensures depth > 12 ==> SanitizeJson(codec, Obj(fields), depth) == Str("[REDACTED]")
  {
  }

  // --- Texts ---------------------------------------------------------------

  /** `part`, which is in lower case, stands in the text at `i`, in any case. */
  predicate WrittenAt(text: string, part: string, i: int) {
    0 <= i <= |text| - |part| && forall j :: 0 <= j < |part| ==> Writes(text[i + j], part[j])
  }

  ghost predicate Mentions(text: string, part: string) {
    exists i :: WrittenAt(text, part, i)
  }

  /** After white space, the word `bearer` in any case, a space, and something more than white space. */
  ghost predicate CarriesBearer(text: string) {
    exists n :: 0 <= n <= |text| && AllSpace(text[..n]) && WrittenAt(text, "bearer ", n) && !AllSpace(text[n + 7..])
  }

  ghost predicate CarriesPrivateKey(text: string) {
    Mentions(text, "-----begin ") && Mentions(text, "private key-----")
  }

  /** After white space, an opening brace or bracket. */
  ghost predicate OpensJson(text: string) {
    exists n :: 0 <= n < |text| && AllSpace(text[..n]) && text[n] in {'{', '['}
  }

  predicate LowerCase(part: string) {
    forall i :: 0 <= i < |part| ==> !('A' <= part[i] <= 'Z') && part[i] < '\U{0100}'
  }

  lemma LowerOccurs(text: string, part: string, i: int)
    requires LowerCase(part)
    ensures OccursAt(ToLower(text), part, i) <==> WrittenAt(text, part, i)
  {
    var lower := ToLower(text);
    if 0 <= i <= |text| - |part| {
      forall j | 0 <= j < |part| ensures Writes(text[i + j], part[j]) <==> lower[i..i + |part|][j] == part[j] { }
    }
  }

  lemma MentionsIff(text: string, part: string)
    requires LowerCase(part)
    ensures Contains(ToLower(text), part) <==> Mentions(text, part)
  {
    hide LowerCase, OccursAt, WrittenAt, ToLower, Contains;
    ContainsIff(ToLower(text), part);
    forall i ensures OccursAt(ToLower(text), part, i) <==> WrittenAt(text, part, i) {
      LowerOccurs(text, part, i);
    }
  }

  lemma PrivateKeyIff(text: string)
    ensures IsPrivateKey(text) <==> CarriesPrivateKey(text)
  {
    hide Mentions, ToLower, Contains;
    MentionsIff(text, "-----begin ");
    MentionsIff(text, "private key-----");
  }

  lemma LoweringKeepsSpace(s: string)
    ensures AllSpace(ToLower(s)) <==> AllSpace(s)
  {
    forall i | 0 <= i < |s| ensures IsSpace(ToLower(s)[i]) <==> IsSpace(s[i]) { }
  }

  /** What is left after trimming starts with `part` exactly if that stands after white space, and is not all. */
  lemma TrimmedStarts(s: string, part: string, n: nat)
    requires part != "" && !IsSpace(part[0])
    requires n <= |s| - |part| && AllSpace(s[..n]) && s[n..n + |part|] == part
    requires !IsSpace(part[|part| - 1]) || !AllSpace(s[n + |part|..])
    ensures HasPrefix(TrimSpace(s), part)
  {
    hide IsSpace, TrimLeft, TrimRight;
    var rest := s[n..];
    assert s == s[..n] + rest && rest[..|part|] == part && rest[|part|..] == s[n + |part|..];
    assert rest[0] == part[0] && rest[|part| - 1] == part[|part| - 1];
    TrimLeftPadded(s[..n], rest);
    var after := TrimRightSplits(rest);
    var trimmed := TrimRight(rest);
    TrimmedKeeps(trimmed, after, part);
    assert trimmed[..|part|] == rest[..|part|];
  }

  lemma TrimmedKeeps(trimmed: string, after: string, part: string)
    requires part != "" && AllSpace(after) && |part| <= |trimmed + after|
    requires !IsSpace((trimmed + after)[|part| - 1]) || !AllSpace((trimmed + after)[|part|..])
    ensures |part| <= |trimmed|
  {
    hide IsSpace;
  }

  lemma TrimmedStartsAt(s: string, part: string) returns (n: nat)
    requires part != "" && HasPrefix(TrimSpace(s), part)
    ensures n <= |s| - |part| && AllSpace(s[..n]) && s[n..n + |part|] == part
    ensures IsSpace(part[|part| - 1]) ==> !AllSpace(s[n + |part|..])
  {
    var before, after := TrimSpaceSplits(s);
    var trimmed := TrimSpace(s);
    hide TrimSpace;
    n := |before|;
    assert s[..n] == before && s[n..n + |part|] == trimmed[..|part|] == part;
    var last := |trimmed| - 1;
    assert trimmed[|part| - 1] == part[|part| - 1];
    assert last >= |part| ==> s[n + |part|..][last - |part|] == trimmed[last];
  }

  lemma BearerIff(text: string)
    ensures IsBearer(text) <==> CarriesBearer(text)
  {
    var lower, part := ToLower(text), "bearer ";
    assert LowerCase(part) && !IsSpace(part[0]) && IsSpace(part[6]);
    hide IsSpace, AllSpace, TrimSpace, ToLower, LowerCase, WrittenAt;
    if IsBearer(text) {
      var n := TrimmedStartsAt(lower, part);
      AtLower(text, part, n);
    }
    if CarriesBearer(text) {
      var n :| 0 <= n <= |text| && AllSpace(text[..n]) && WrittenAt(text, part, n) && !AllSpace(text[n + 7..]);
      AtLower(text, part, n);
      TrimmedStarts(lower, part, n);
    }
  }

  lemma AtLower(text: string, part: string, n: nat)
    requires LowerCase(part) && n <= |text| - |part|
    ensures ToLower(text)[n..n + |part|] == part <==> WrittenAt(text, part, n)
    ensures AllSpace(ToLower(text)[..n]) <==> AllSpace(text[..n])
    ensures AllSpace(ToLower(text)[n + |part|..]) <==> AllSpace(text[n + |part|..])
  {
    LowerOccurs(text, part, n);
    LoweringKeepsSpace(text[..n]);
    LoweringKeepsSpace(text[n + |part|..]);
    assert ToLower(text)[..n] == ToLower(text[..n]);
    assert ToLower(text)[n + |part|..] == ToLower(text[n + |part|..]);
  }

  lemma JsonIff(text: string)
    ensures LooksLikeJson(text) <==> OpensJson(text)
  {
    hide TrimSpace;
    if HasPrefix(TrimSpace(text), "{") { var n := TrimmedStartsAt(text, "{"); }
    if HasPrefix(TrimSpace(text), "[") { var n := TrimmedStartsAt(text, "["); }
    if OpensJson(text) {
      var n :| 0 <= n < |text| && AllSpace(text[..n]) && text[n] in {'{', '['};
      assert text[n..n + 1] == [text[n]];
      TrimmedStarts(text, [text[n]], n);
    }
  }

  /**
   A text that carries a bearer token or a private key is replaced as a whole; one
   that carries neither, is no data URL and does not open a JSON object or array
   passes unchanged, at any depth.
   */
  lemma SecretsAreReplaced(codec: Codec, text: string, depth: nat)
    ensures CarriesBearer(text) || CarriesPrivateKey(text) ==> SanitizeString(codec, text, depth) == "[REDACTED]"
    ensures PlainText(codec, text) ==> SanitizeString(codec, text, depth) == text
  {
    BearerIff(text);
    PrivateKeyIff(text);
    JsonIff(text);
    hide IsBearer, IsPrivateKey, LooksLikeJson, CarriesBearer, CarriesPrivateKey, OpensJson;
  }

  /** Binary data is reduced to its descriptor; what is missing or lies below level 12 is replaced. */
  lemma MediaIsDescribed(codec: Codec, text: string, bytes: seq<Keys.byte>, value: Option<Value>, depth: nat)
    ensures depth <= 12 ==>
      SanitizeValue(codec, Some(Bytes(bytes)), depth) == Value.Text(codec.describe("application/octet-stream", bytes))
    ensures !CarriesBearer(text) && !CarriesPrivateKey(text) && codec.dataUrl(TrimSpace(text)).Some? ==>
      var (mediaType, data) := codec.dataUrl(TrimSpace(text)).value;
      SanitizeString(codec, text, depth) == codec.describe(mediaType, data)
    ensures value.None? || depth > 12 ==> SanitizeValue(codec, value, depth) == Value.Text("[REDACTED]")
  {
    BearerIff(text);
    PrivateKeyIff(text);
    hide IsBearer, IsPrivateKey, CarriesBearer, CarriesPrivateKey;
  }

  // --- Keys that headers and environments use ------------------------------

  lemma {:induction false} AnyCaseSpells(text: string, term: string)
    requires |text| == |term| && forall i :: 0 <= i < |term| ==> Writes(text[i], term[i]) && !Separates(text[i])
    ensures Spells(text, term)
  {
    if text != "" { AnyCaseSpells(text[1..], term[1..]); }
  }

  lemma {:induction false} SeparatorsSpellNothing(text: string)
    requires forall i :: 0 <= i < |text| ==> Separates(text[i])
    ensures Spells(text, "")
  {
    if text != "" { SeparatorsSpellNothing(text[1..]); }
  }

  lemma {:induction false} SpellsConcat(a: string, first: string, b: string, second: string)
    requires Spells(a, first) && Spells(b, second)
    ensures Spells(a + b, first + second)
  {
    if a == "" {
      assert a + b == b && first + second == second;
    } else {
      assert (a + b)[1..] == a[1..] + b;
      if Separates(a[0]) {
        SpellsConcat(a[1..], first, b, second);
      } else {
        assert (first + second)[1..] == first[1..] + second;
        SpellsConcat(a[1..], first[1..], b, second);
      }
    }
  }

  lemma WholeKeyIsNamed(key: string, term: string)
    requires Spells(key, term)
    ensures Names(key, term)
  {
    assert key[0..|key|] == key;
  }

  lemma AuthorizationIsCaught()
    ensures NamesCredential("Authorization")
  {
    AnyCaseSpells("Authorization", "authorization");
    WholeKeyIsNamed("Authorization", "authorization");
    hide Names;
  }

  lemma ApiKeyIsCaught()
    ensures NamesCredential("X-API-Key")
  {
    AnyCaseSpells("API", "api");
    SeparatorsSpellNothing("-");
    AnyCaseSpells("Key", "key");
    SpellsConcat("API", "api", "-", "");
    SpellsConcat("API" + "-", "api" + "", "Key", "key");
    var key := "X-API-Key";
    assert "API" + "-" + "Key" == key[2..9] && "api" + "" + "key" == "apikey";
    hide Spells;
    assert Names(key, "apikey");
  }

  // --- Ordinary data passes ------------------------------------------------

  ghost predicate PlainText(codec: Codec, text: string) {
    !CarriesBearer(text) && !CarriesPrivateKey(text) && codec.dataUrl(TrimSpace(text)).None? && !OpensJson(text)
  }

  ghost predicate PlainKey(key: string) {
    !NamesAudio(key) && !NamesCredential(key)
  }

  /** Numbers, flags and plain texts in lists of at most 256 entries under plain keys. */
  ghost predicate PlainValue(codec: Codec, value: Value) {
    match value
    case Text(text) => PlainText(codec, text)
    case Bytes(_) => false
    case Array(items) => |items| <= 256 && forall i :: 0 <= i < |items| ==> PlainItem(codec, items[i])
    case Kvlist(list) => |list| <= 256 && forall i :: 0 <= i < |list| ==> PlainAttribute(codec, list[i])
    case _ => true
  }

  ghost predicate PlainItem(codec: Codec, item: Option<Value>) {
    match item
    case Some(value) => PlainValue(codec, value)
    case None => false
  }

  ghost predicate PlainAttribute(codec: Codec, attribute: Option<KeyValue>) {
    match attribute
    case Some(KeyValue(key, Some(value))) => PlainKey(key) && PlainValue(codec, value)
    case _ => false
  }

  lemma {:induction false} PlainValuePasses(codec: Codec, value: Value, depth: nat)
    requires PlainValue(codec, value) && depth + Nesting(value) <= 12
    ensures SanitizeValue(codec, Some(value), depth) == value
    decreases Budget(depth), 0
  {
    hide PlainText, PlainItem, PlainAttribute, SanitizeString, AttributesAtDepth, SanitizeValues, ListNesting, ItemNesting;
    match value
    case Text(text) => SecretsAreReplaced(codec, text, depth);
    case Array(items) => PlainItemsPass(codec, items, depth);
    case Kvlist(list) => PlainListPasses(codec, list, depth + 1);
    case _ =>
  }

  lemma {:induction false} PlainItemsPass(codec: Codec, items: seq<Option<Value>>, depth: nat)
    requires forall i :: 0 <= i < |items| ==> PlainItem(codec, items[i])
    requires depth + 1 + ItemNesting(items) <= 12
    ensures SanitizeValues(codec, items, depth) == items
    decreases Budget(depth + 1), 1, |items|
  {
    hide PlainValue, Nesting, ItemNesting;
    if items != [] {
      var n := |items| - 1;
      ItemNestingOf(items, n);
      assert PlainItem(codec, items[n]);
      PlainItemsPass(codec, items[..n], depth);
      PlainValuePasses(codec, items[n].value, depth + 1);
    }
  }

  lemma {:induction false} ItemNestingOf(items: seq<Option<Value>>, n: nat)
    requires n < |items|
    ensures OneNesting(items[n]) <= ItemNesting(items) && ItemNesting(items[..n]) <= ItemNesting(items)
  {
    if n > 0 {
      assert items[..n][1..] == items[1..][..n - 1];
      ItemNestingOf(items[1..], n - 1);
    }
  }

  lemma {:induction false} ListNestingOf(list: AttributeList, n: nat)
    requires n < |list|
    ensures AttributeNesting(list[n]) <= ListNesting(list) && ListNesting(list[..n]) <= ListNesting(list)
  {
    if n > 0 {
      assert list[..n][1..] == list[1..][..n - 1];
      ListNestingOf(list[1..], n - 1);
    }
  }

  /** Redaction changes nothing in a list of ordinary attributes that nests within its depth. */
  lemma {:induction false} PlainListPasses(codec: Codec, list: AttributeList, depth: nat)
    requires |list| <= 256 && forall i :: 0 <= i < |list| ==> PlainAttribute(codec, list[i])
    requires depth + ListNesting(list) <= 12
    ensures AttributesAtDepth(codec, list, depth) == list
    decreases Budget(depth), 1, |list|
  {
    hide PlainValue, PlainKey, AttributesAtDepth;
    if list == [] {
      ListStops(codec, list, 0, depth);
    } else {
      var n := |list| - 1;
      ListNestingOf(list, n);
      assert PlainAttribute(codec, list[n]);
      assert list[..n + 1] == list;
      PlainListPasses(codec, list[..n], depth);
      var clean := EachAttribute(codec, list, n, depth);
      PlainValuePasses(codec, list[n].value.value.value, depth + 1);
      PlainAttributeStays(codec, list[n].value, depth, clean);
    }
  }

  lemma PlainAttributeStays(codec: Codec, attribute: KeyValue, depth: nat, clean: AttributeList)
    requires attribute.value.Some? && PlainKey(attribute.key) && Becomes(codec, attribute, depth, clean)
    requires SanitizeValue(codec, attribute.value, depth + 1) == attribute.value.value
    ensures clean == [Some(attribute)]
  {
    hide NamesAudio, NamesCredential, SanitizeValue;
  }

  ghost predicate PlainJson(codec: Codec, value: Json) {
    match value
    case Str(text) => PlainText(codec, text)
    case Arr(items) => |items| <= 256 && forall i :: 0 <= i < |items| ==> PlainJson(codec, items[i])
    case Obj(fields) => |fields| <= 256 && forall i :: 0 <= i < |fields| ==> PlainField(codec, fields[i])
    case _ => true
  }

  ghost predicate PlainField(codec: Codec, field: Field) {
    match field
    case Field(key, value) => PlainKey(key) && PlainJson(codec, value)
  }

  /** Nor does it change JSON of that kind. */
  lemma {:induction false} PlainJsonPasses(codec: Codec, value: Json, depth: nat)
    requires PlainJson(codec, value) && depth + JsonNesting(value) <= 12
    ensures SanitizeJson(codec, value, depth) == value
    decreases Budget(depth), 0
  {
    hide PlainText, PlainField, SanitizeString, SanitizeItems, SanitizeFields, FieldNesting, ElementNesting;
    match value
    case Str(text) => SecretsAreReplaced(codec, text, depth + 1);
    case Arr(items) => PlainElementsPass(codec, items, depth);
    case Obj(fields) => PlainFieldsPass(codec, fields, depth);
    case _ =>
  }

  lemma {:induction false} PlainElementsPass(codec: Codec, items: seq<Json>, depth: nat)
    requires forall i :: 0 <= i < |items| ==> PlainJson(codec, items[i])
    requires depth + 1 + ElementNesting(items) <= 12
    ensures SanitizeItems(codec, items, depth) == items
    decreases Budget(depth + 1), 1, |items|
  {
    hide PlainJson, JsonNesting, ElementNesting;
    if items != [] {
      var n := |items| - 1;
      ElementNestingOf(items, n);
      PlainElementsPass(codec, items[..n], depth);
      PlainJsonPasses(codec, items[n], depth + 1);
    }
  }

  lemma {:induction false} PlainFieldsPass(codec: Codec, fields: seq<Field>, depth: nat)
    requires forall i :: 0 <= i < |fields| ==> PlainField(codec, fields[i])
    requires depth + 1 + FieldNesting(fields) <= 12
    ensures SanitizeFields(codec, fields, depth) == fields
    decreases Budget(depth + 1), 1, |fields|
  {
    hide PlainJson, JsonNesting, FieldNesting, NamesAudio, NamesCredential, IsAudio, IsCredential;
    if fields != [] {
      var n := |fields| - 1;
      FieldNestingOf(fields, n);
      assert PlainField(codec, fields[n]);
      AudioIffNamed(fields[n].key);
      CredentialIffNamed(fields[n].key);
      PlainFieldsPass(codec, fields[..n], depth);
      PlainJsonPasses(codec, fields[n].value, depth + 1);
    }
  }

  lemma {:induction false} ElementNestingOf(items: seq<Json>, n: nat)
    requires n < |items|
    ensures JsonNesting(items[n]) <= ElementNesting(items) && ElementNesting(items[..n]) <= ElementNesting(items)
  {
    if n > 0 {
      assert items[..n][1..] == items[1..][..n - 1];
      ElementNestingOf(items[1..], n - 1);
    }
  }

  lemma {:induction false} FieldNestingOf(fields: seq<Field>, n: nat)
    requires n < |fields|
    ensures JsonNesting(fields[n].value) <= FieldNesting(fields) && FieldNesting(fields[..n]) <= FieldNesting(fields)
  {
    if n > 0 {
      assert fields[..n][1..] == fields[1..][..n - 1];
      FieldNestingOf(fields[1..], n - 1);
    }
  }
}
