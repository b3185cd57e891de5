/**
 * A parsed JSON value, as `json.loads` hands it to the service.
 * Numbers are kept as their source token: nothing in the core inspects them.
 * An object keeps its keys in insertion order, as a Python dict does.
 */
module JsonValue {

  datatype Json =
    | Null
    | Bool(b: bool)
    | Num(token: string)
    | Str(s: string)
    | Arr(items: seq<Json>)
    | Obj(fields: seq<(string, Json)>)
  {
    /** A list or an object (Python's `list` / `dict`). */
    predicate IsContainer() {
      Arr? || Obj?
    }
  }

  /** What `json.loads` does with the payload: a value, a `JSONDecodeError`,
      or another exception (a `RecursionError` on very deep nesting). */
  datatype ParseOutcome =
    | Parsed(value: Json)
    | Malformed(message: string)
    | ParserCrashed(message: string)
}
