/**
 * The dynamically typed values the services pass around: what `json.loads`
 * produces (`None`, booleans, numbers, strings, lists, dicts with string
 * keys) plus BSON's `ObjectId`, which documents read back from the claim
 * store carry.
 */
module Json {
  import opened Basics

  datatype Value =
    | Null
    | Bool(b: bool)
    | Num(x: real)
    | Str(s: string)
    | ObjectId(hex: string)
    | List(items: seq<Value>)
    | Dict(entries: map<string, Value>)

  type Object = map<string, Value>

  /** Python truthiness (`bool(v)`): exactly `None`, `False`, `0`, `""`, `[]` and `{}` are false. */
  predicate Truthy(v: Value)
    ensures !Truthy(v) <==> v == Null || v == Bool(false) || v == Num(0.0) || v == Str("") || v == List([]) || v == Dict(map[])
  {
    match v
    case Null => false
    case Bool(b) => b
    case Num(x) => x != 0.0
    case Str(s) => s != ""
    case ObjectId(_) => true
    case List(items) => items != []
    case Dict(m) => m != map[]
  }

  /** `d.get(key, default)` */
  function Get(d: Object, key: string, default: Value): (v: Value)
    ensures key in d ==> v == d[key]
    ensures key !in d ==> v == default
  {
    if key in d then d[key] else default
  }

  /** `json.loads`: text to a value, or `None` where it raises. It is a parameter of the model. */
  type Decoder = string -> Option<Value>

  /** `float(s)` on a string: a number, or `None` where it raises. It is a parameter of the model. */
  type FloatParser = string -> Option<real>
}
