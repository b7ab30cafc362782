/**
 * JSON values as they travel between the browser, the Node server and the
 * Python email service. Numbers are integers (the payloads of this system
 * carry no fractions).
 */
module JsonData {
  import opened Common

  datatype Json =
    | JStr(s: string)
    | JNum(n: int)
    | JBool(b: bool)
    | JNull
    | JArr(items: seq<Json>)
    | JObj(fields: map<string, Json>)

  /** The type name zod reports as "received" for a value that is present. */
  function ZodTypeName(v: Json): string {
    match v
    case JStr(_) => "string"
    case JNum(_) => "number"
    case JBool(_) => "boolean"
    case JNull => "null"
    case JArr(_) => "array"
    case JObj(_) => "object"
  }

  /** The name of the Python type `json.loads` produces for a value. */
  function PyTypeName(v: Json): string {
    match v
    case JStr(_) => "str"
    case JNum(_) => "int"
    case JBool(_) => "bool"
    case JNull => "NoneType"
    case JArr(_) => "list"
    case JObj(_) => "dict"
  }

  /** Property `key` of an object; `None` for a missing key or a value that is not an object (JavaScript `undefined`). */
  function Member(v: Json, key: string): (r: Option<Json>)
    ensures r.Some? <==> v.JObj? && key in v.fields
    ensures r.Some? ==> r.value == v.fields[key]
  {
    if v.JObj? && key in v.fields then Some(v.fields[key]) else None
  }
}
