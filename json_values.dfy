/**
 * The JSON-like provider entries of the configuration file
 * (`{"name": ..., "api_key": ..., "status": ..., ...}`) and Python's
 * truthiness of their values.
 */
module JsonValues {
  import opened Common

  datatype Value = Null | Bool(b: bool) | Int(i: int) | Str(s: string) | List(items: seq<Value>) | Object(fields: map<string, Value>)
  {
    /** Python's `bool(value)`: false for null, false, zero and the empty string, list and dictionary. */
    predicate Truthy()
    {
      match this
      case Null => false
      case Bool(b) => b
      case Int(i) => i != 0
      case Str(s) => s != ""
      case List(items) => items != []
      case Object(fields) => fields != map[]
    }
  }

  type Entry = map<string, Value>

  /** `entry.get(key)`. */
  function Get(e: Entry, key: string): Value
  {
    if key in e then e[key] else Null
  }

  /** `entry.get(key)` when it is a string. */
  function Text(e: Entry, key: string): Option<string>
  {
    if key in e && e[key].Str? then Some(e[key].s) else None
  }

  /** `entry.get(key, "")` read as a string; values of other types read as "". */
  function TextOr(e: Entry, key: string, default: string): string
  {
    if key !in e then default else if e[key].Str? then e[key].s else ""
  }

  /** `entry.get(key) or entry.get(other)`. */
  function Either(e: Entry, key: string, other: string): Value
  {
    if Get(e, key).Truthy() then Get(e, key) else Get(e, other)
  }

  /** `entry.get(key) == Str(text)`. */
  predicate Is(e: Entry, key: string, text: string)
  {
    Get(e, key) == Str(text)
  }
}
