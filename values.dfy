/**
 * The dynamically typed values the pipeline passes around in Python
 * dictionaries (the dumped structured query, document property bags),
 * with Python's truthiness and `dict.get`.
 */
module Values {

  /** A JSON-like value: `None`, a `str`, a number, a list of `str` or a list of numbers. */
  datatype Value =
    | Null
    | Str(text: string)
    | Num(number: real)
    | StrList(items: seq<string>)
    | NumList(numbers: seq<real>)

  /** A Python `dict` with string keys. */
  type Dict = map<string, Value>

  /** Python's `bool(v)`: `None`, `""`, `0` and empty lists are false. */
  predicate Truthy(v: Value)
  {
    match v
    case Null => false
    case Str(s) => s != ""
    case Num(x) => x != 0.0
    case StrList(l) => l != []
    case NumList(l) => l != []
  }

  /** `d.get(k)`: the value under `k`, or `None` when the key is missing. */
  function Get(d: Dict, k: string): Value
  {
    if k in d then d[k] else Null
  }

  /** `d.get(k, default)`. */
  function GetOr(d: Dict, k: string, default: Value): Value
  {
    if k in d then d[k] else default
  }
}
