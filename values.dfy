/** The parsed contents of a `wave.yaml` document, and the few Python operations the
    hook runner applies to it: subscripting with a string key, `dict.get`, and truth
    testing. Each operation either yields a value or names the exception Python raises. */
module Values {

  /** A node of a parsed YAML document (what `yaml.safe_load` builds). */
  datatype Value =
    | VNull
    | VBool(b: bool)
    | VNum(n: int)
    | VStr(s: string)
    | VList(items: seq<Value>)
    | VMap(fields: map<string, Value>)

  /** The Python exceptions the orchestrator can raise on a malformed document;
      YAMLError is what `yaml.safe_load` raises on text that is not YAML. */
  datatype PyError = KeyError | TypeError | AttributeError | UnboundLocalError | YAMLError

  datatype Result<T> = Got(value: T) | Raised(error: PyError)

  /** Python's truth value of a document node (`if x:`). */
  predicate Truthy(v: Value)
  {
    match v
    case VNull => false
    case VBool(b) => b
    case VNum(n) => n != 0
    case VStr(s) => s != []
    case VList(items) => items != []
    case VMap(fields) => fields != map[]
  }

  /** `v[key]` for a string key: a mapping without the key raises KeyError, and any
      other kind of node (list, string, number, None) raises TypeError. */
  function Subscript(v: Value, key: string): Result<Value>
  {
    match v
    case VMap(fields) => if key in fields then Got(fields[key]) else Raised(KeyError)
    case _ => Raised(TypeError)
  }

  /** `v.get(key)`: None for a missing key; only mappings have a `get` method. */
  function Get(v: Value, key: string): Result<Value>
  {
    match v
    case VMap(fields) => Got(if key in fields then fields[key] else VNull)
    case _ => Raised(AttributeError)
  }
}
