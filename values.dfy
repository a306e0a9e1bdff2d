/**
 * The dynamically typed values that flow through the pipeline: JSON-shaped
 * data from the extraction model, warehouse rows, and request bodies, plus
 * the timestamps the warehouse client hands back.
 */
module Values {

  import opened Wrappers

  /** A point in time, as microseconds since the Unix epoch (a Python datetime). */
  datatype Timestamp = Timestamp(micros: int)

  /** A Python value of the kinds that occur in records, rows and payloads. */
  datatype Value =
    | Null
    | Bool(b: bool)
    | Int(i: int)
    | Str(s: string)
    | Arr(items: seq<Value>)
    | Obj(fields: map<string, Value>)
    | Time(t: Timestamp)

  /** A Python dict with string keys. */
  type Dict = map<string, Value>

  /** Python truthiness: None, False, 0 and empty containers are false. */
  predicate Truthy(v: Value) {
    match v
    case Null => false
    case Bool(b) => b
    case Int(i) => i != 0
    case Str(s) => s != ""
    case Arr(items) => items != []
    case Obj(fields) => fields != map[]
    case Time(_) => true
  }

  /** `d.get(key)`: the value stored under key, or None when the key is absent. */
  function Get(d: Dict, key: string): Value {
    if key in d then d[key] else Null
  }

  /** Truthiness of an `Optional[str]`: set and non-empty. */
  predicate TruthyText(o: Option<string>) {
    o.Some? && o.value != ""
  }

  /** `f"{o}"` for an `Optional[str]`: the text itself, or "None". */
  function FormattedText(o: Option<string>): string {
    if o.Some? then o.value else "None"
  }

  /** `f"{v}"`: a string prints as itself, None as "None", anything else through `str()` (`show`). */
  function Formatted(v: Value, show: Value -> string): string {
    match v
    case Str(s) => FormattedText(Some(s))
    case Null => FormattedText(None)
    case _ => show(v)
  }

  /** `type(v).__name__` (the qualified name for datetime), as Python's error messages print it. */
  function TypeName(v: Value): string {
    match v
    case Null => "NoneType"
    case Bool(_) => "bool"
    case Int(_) => "int"
    case Str(_) => "str"
    case Arr(_) => "list"
    case Obj(_) => "dict"
    case Time(_) => "datetime.datetime"
  }

}
