/** Decoded JSON as Go's `encoding/json` hands it to the gateway. */
module Json {
  import opened Prelude

  /**
   An object lists its fields in the order in which a `range` over the decoded
   map visits them, which may be any order and may differ between two visits;
   statements about all values therefore cover every iteration order.
   */
  datatype Json =
    | Null
    | Bool(b: bool)
    | Number(literal: string)
    | Str(text: string)
    | Arr(items: seq<Json>)
    | Obj(fields: seq<Field>)

  datatype Field = Field(key: string, value: Json)

  function Lookup(fields: seq<Field>, key: string): Option<Json> {
    if fields == [] then None
    else if fields[0].key == key then Some(fields[0].value)
    else Lookup(fields[1..], key)
  }
}
