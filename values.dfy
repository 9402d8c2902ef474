/** The parsed configuration document: the tree yaml.safe_load produces. */
module ConfigValues {

  import opened Wrappers

  /** One node of a YAML document. Mapping keys are strings. */
  datatype Value =
    | Map(entries: map<string, Value>)
    | List(items: seq<Value>)
    | Str(s: string)
    | Int(i: int)
    | Real(r: real)
    | Bool(b: bool)
    | Null

  const EmptyMap: Value := Map(map[])

  /** Python truthiness of a node: empty containers, the empty string, zero, False and None are false. */
  predicate Truthy(v: Value)
  {
    match v
    case Map(m) => |m| > 0
    case List(xs) => |xs| > 0
    case Str(s) => |s| > 0
    case Int(i) => i != 0
    case Real(r) => r != 0.0
    case Bool(b) => b
    case Null => false
  }

  /** `d.get(key, default)` on a node: the entry of a mapping, or the default when the key is absent.
      Any other node has no `get` attribute, which is an error. */
  function DictGet(v: Value, key: string, default: Value): (r: Option<Value>)
    ensures r.Some? <==> v.Map?
    ensures v.Map? && key in v.entries ==> r == Some(v.entries[key])
    ensures v.Map? && key !in v.entries ==> r == Some(default)
  {
    match v
    case Map(m) => Some(if key in m then m[key] else default)
    case _ => None
  }
}
