/** OTLP attribute lists, in which pointers of the decoded message may be nil. */
module Attributes {
  import opened Prelude
  import opened Keys

  datatype Value =
    | Empty
    | Text(text: string)
    | Flag(flag: bool)
    | Whole(whole: int64)
    | Double(bits: nat)
    | Bytes(bytes: seq<byte>)
    | Array(items: seq<Option<Value>>)
    | Kvlist(list: seq<Option<KeyValue>>)

  datatype KeyValue = KeyValue(key: string, value: Option<Value>)

  type AttributeList = seq<Option<KeyValue>>

  function Attribute(key: string, value: Value): Option<KeyValue> {
    Some(KeyValue(key, Some(value)))
  }

  /** The value of the first attribute with the key, which may itself be nil. */
  function AttributeValue(attributes: AttributeList, key: string): Option<Value> {
    if attributes == [] then None
    else if attributes[0].Some? && attributes[0].value.key == key then attributes[0].value.value
    else AttributeValue(attributes[1..], key)
  }

  function StringValue(attributes: AttributeList, key: string): Option<string> {
    match AttributeValue(attributes, key)
    case Some(Text(text)) => Some(text)
    case _ => None
  }

  /** How often a key occurs. */
  function Count(attributes: AttributeList, key: string): nat {
    if attributes == [] then 0
    else (if attributes[0].Some? && attributes[0].value.key == key then 1 else 0) + Count(attributes[1..], key)
  }

  lemma {:induction false} CountConcat(a: AttributeList, b: AttributeList, key: string)
    ensures Count(a + b, key) == Count(a, key) + Count(b, key)
  {
    if a == [] {
      assert a + b == b;
    } else {
      assert (a + b)[1..] == a[1..] + b;
      CountConcat(a[1..], b, key);
    }
  }

  lemma {:induction false} CountAbsent(a: AttributeList, key: string)
    requires forall i :: 0 <= i < |a| && a[i].Some? ==> a[i].value.key != key
    ensures Count(a, key) == 0
  {
    if a != [] {
      CountAbsent(a[1..], key);
    }
  }

  lemma {:induction false} ValueBefore(front: AttributeList, rest: AttributeList, key: string)
    requires forall i :: 0 <= i < |rest| && rest[i].Some? ==> rest[i].value.key != key
    ensures AttributeValue(front + rest, key) == AttributeValue(front, key)
  {
    if front == [] {
      assert front + rest == rest;
      if rest != [] { ValueBefore([], rest[1..], key); assert [] + rest[1..] == rest[1..]; }
    } else {
      assert (front + rest)[1..] == front[1..] + rest;
      ValueBefore(front[1..], rest, key);
    }
  }
}
