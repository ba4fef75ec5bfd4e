/** Decoded JSON values as the Python code sees them (`json.loads` output),
    and the few dict operations the core uses on them. */
module JsonValue {
  import opened PyText

  /** A decoded JSON value. Numbers are integers; objects are Python dicts. */
  datatype Json =
    | Null
    | Bool(b: bool)
    | Num(n: int)
    | Str(s: string)
    | Arr(items: seq<Json>)
    | Obj(fields: map<string, Json>)

  /** A Python dict with string keys, such as one article record. */
  type Dict = map<string, Json>

  /** Python truthiness, `bool(v)`. */
  predicate Truthy(v: Json) {
    match v
    case Null => false
    case Bool(b) => b
    case Num(n) => n != 0
    case Str(s) => s != ""
    case Arr(xs) => xs != []
    case Obj(m) => m != map[]
  }

  /** `d.get(key, default)`. */
  function Get(d: Dict, key: string, default: Json): Json {
    if key in d then d[key] else default
  }

  /** `str(v)`, as an f-string renders `v`. The text Python gives a list or a
      dict (its `repr`) is taken as the parameter `containerRepr`. */
  function PyStr(v: Json, containerRepr: Json -> string): string {
    match v
    case Null => "None"
    case Bool(b) => if b then "True" else "False"
    case Num(n) => Decimal(n)
    case Str(s) => s
    case Arr(_) => containerRepr(v)
    case Obj(_) => containerRepr(v)
  }

  /** A list of dicts as one JSON list of objects. */
  function Objects(ds: seq<Dict>): (r: seq<Json>)
    ensures |r| == |ds|
    ensures forall k :: 0 <= k < |ds| ==> r[k].Obj? && r[k].fields == ds[k]
  {
    seq(|ds|, k requires 0 <= k < |ds| => Obj(ds[k]))
  }
}
