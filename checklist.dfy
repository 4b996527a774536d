/** What decoding an inspection's checklist column yields. The text grammar
    itself is not modelled: a payload is the decoded document, or the reason
    there is none. */
module Checklist {

  /** A decoded JSON document. Integers and floats are both numbers. */
  datatype JsonValue =
    | JNull
    | JBool(b: bool)
    | JNumber(n: real)
    | JString(s: string)
    | JArray(items: seq<JsonValue>)
    | JObject(fields: map<string, JsonValue>)

  /** Python truthiness: null, false, 0, "", [] and {} are falsy. */
  predicate Truthy(v: JsonValue) {
    match v
    case JNull => false
    case JBool(b) => b
    case JNumber(n) => n != 0.0
    case JString(s) => s != ""
    case JArray(items) => items != []
    case JObject(fields) => fields != map[]
  }

  /** The checklist column of one record, after decoding. */
  datatype Payload =
    | Missing                     // the column is NULL: decoding raises a type error
    | Malformed                   // the text is not a JSON document
    | Decoded(value: JsonValue)
  {
    /** Only a decoded object has a `get` lookup; everything else raises. */
    predicate IsObject() {
      Decoded? && value.JObject?
    }
  }

  /** `checklist.get(factor, False)`: an absent factor reads as false. */
  function Get(fields: map<string, JsonValue>, factor: string): JsonValue {
    if factor in fields then fields[factor] else JBool(false)
  }

  /** A factor counts as present when its looked-up value is truthy. */
  predicate Present(fields: map<string, JsonValue>, factor: string) {
    Truthy(Get(fields, factor))
  }
}
