/**
 * Python values as they flow through the extraction-and-append pipeline:
 * the scalars and containers a parsed JSON reply, an item dictionary or a
 * spreadsheet cell can hold, Python's truthiness, dictionary access, and
 * the exceptions the core raises or passes on.
 */
module Values {

  datatype Option<T> = None | Some(value: T)

  /** A value, or the exception that computing it raised. */
  datatype Result<T> = Ok(value: T) | Err(error: Error)

  /** The exceptions the core raises, translates or propagates. */
  datatype Error =
    | ValueError(msg: string)
    | RuntimeError(msg: string)
    | FileNotFoundError(msg: string)
    | PermissionError(msg: string)
    | TypeError
    | AttributeError
    | ApiError(msg: string)       // an error raised by the spreadsheet service, with its text
    | DownloadError(msg: string)  // an error raised while fetching the post

  /** A Python value: None, bool, int, float (modelled exactly as a real), str, list, dict. */
  datatype Value =
    | Null
    | Bool(b: bool)
    | Int(i: int)
    | Float(f: real)
    | Str(s: string)
    | List(elems: seq<Value>)
    | Dict(fields: map<string, Value>)

  /** An extracted item: a dictionary from field names to values. */
  type Item = map<string, Value>

  /** One spreadsheet or backup row: an ordered list of cells. */
  type Row = seq<Value>

  /** Python's `bool(v)`. */
  predicate Truthy(v: Value)
  {
    match v
    case Null => false
    case Bool(b) => b
    case Int(i) => i != 0
    case Float(f) => f != 0.0
    case Str(s) => s != ""
    case List(e) => e != []
    case Dict(m) => m != map[]
  }

  /** Python's `a or b`: the first operand when it is truthy, else the second. */
  function Or(a: Value, b: Value): Value
  {
    if Truthy(a) then a else b
  }

  /** `d.get(key)`: None when the key is absent. */
  function Get(d: map<string, Value>, key: string): Value
  {
    if key in d then d[key] else Null
  }

  /** `d.get(key, default)`. */
  function GetOr(d: map<string, Value>, key: string, default: Value): Value
  {
    if key in d then d[key] else default
  }

  /** The dictionary after `d.setdefault(key, v)`. */
  function SetDefault(d: map<string, Value>, key: string, v: Value): map<string, Value>
  {
    if key in d then d else d[key := v]
  }

  /** A Python `str | None` setting is truthy when it is present and not empty. */
  predicate IsSet(o: Option<string>)
  {
    o.Some? && o.value != ""
  }

  function Min(a: int, b: int): int
  {
    if a <= b then a else b
  }

  function Max(a: real, b: real): real
  {
    if a >= b then a else b
  }
}
