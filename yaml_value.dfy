/**
 * The document that `yaml.safe_load` returns, as the Python values the
 * handler inspects: scalars, lists and string-keyed dictionaries, together
 * with the few pieces of Python semantics the handler relies on
 * (truthiness, `dict.get`, and the exceptions a lookup can raise).
 */
module YamlValue {
  import opened Wrappers

  /** A parsed YAML node, seen as a Python value. */
  datatype Yaml =
    | Null
    | Bool(b: bool)
    | Int(i: int)
    | Str(s: string)
    | List(items: seq<Yaml>)
    | Map(entries: map<string, Yaml>)

  /** Python truthiness: `None`, `False`, `0`, `""`, `[]` and `{}` are falsy. */
  predicate Truthy(y: Yaml)
  {
    match y
    case Null => false
    case Bool(b) => b
    case Int(i) => i != 0
    case Str(s) => s != ""
    case List(items) => items != []
    case Map(entries) => entries != map[]
  }

  /** The name Python gives the value's type in its error messages. */
  function TypeName(y: Yaml): string
  {
    match y
    case Null => "NoneType"
    case Bool(_) => "bool"
    case Int(_) => "int"
    case Str(_) => "str"
    case List(_) => "list"
    case Map(_) => "dict"
  }

  /** `d.get(key, default)`: the default is used only when the key is absent. */
  function GetOr(d: map<string, Yaml>, key: string, default: Yaml): Yaml
  {
    if key in d then d[key] else default
  }

  /** `d.get(key)` where the key itself may be `None`; no string-keyed entry matches `None`. */
  function DictGet(d: map<string, Yaml>, key: Option<string>): Yaml
  {
    if key.Some? && key.value in d then d[key.value] else Null
  }

  /** The exceptions the modelled code can raise once the document is loaded. */
  datatype PyError =
    | KeyError(key: string)                              // `d[key]` with the key absent
    | AttributeError(typeName: string, attribute: string) // `.get` or `.items` on a non-dict
    | TypeError(typeName: string)                        // `v[key]` on a value that is not a dict
    | ClientError                                        // a storage client constructor raised
}
