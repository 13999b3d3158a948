/** Values exchanged between the browser and the server: scalar JSON values and
    flat JSON objects, as the JavaScript on both ends sees them. */
module Protocol {

  datatype Option<+T> = None | Some(value: T)

  /** A scalar JSON value; `Undefined` is what reading a missing field gives. */
  datatype Value = Undefined | Null | Str(s: string) | Num(n: int) | Bool(b: bool)

  /** A flat JSON object: field name to value. */
  type Payload = map<string, Value>

  /** `obj.field` in JavaScript: a missing field reads as undefined. */
  function Get(p: Payload, field: string): Value {
    if field in p then p[field] else Undefined
  }
}
