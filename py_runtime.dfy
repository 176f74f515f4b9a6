/** The few pieces of Python's data model the core relies on: dynamically
    typed values, truthiness, the exceptions it raises and list indexing. */
module PyRuntime {
  import opened Wrappers

  /** A Python value as the core handles one: keyword-argument values,
      positional arguments and serialized history entries. Floats are kept
      as exact reals; the model never computes with them. */
  datatype Value =
    | VNone
    | VBool(b: bool)
    | VInt(i: int)
    | VFloat(r: real)
    | VStr(s: string)
    | VList(items: seq<Value>)
    | VTuple(elems: seq<Value>)
    | VDict(entries: map<string, Value>)

  /** `bool(v)`: None, False, zero and empty containers are false. */
  predicate Truthy(v: Value) {
    match v
    case VNone => false
    case VBool(b) => b
    case VInt(i) => i != 0
    case VFloat(r) => r != 0.0
    case VStr(s) => |s| > 0
    case VList(xs) => |xs| > 0
    case VTuple(xs) => |xs| > 0
    case VDict(m) => |m| > 0
  }

  /** `type(v).__name__` */
  function TypeName(v: Value): string
  {
    match v
    case VNone => "NoneType"
    case VBool(_) => "bool"
    case VInt(_) => "int"
    case VFloat(_) => "float"
    case VStr(_) => "str"
    case VList(_) => "list"
    case VTuple(_) => "tuple"
    case VDict(_) => "dict"
  }

  /** `int(r)` of a float: truncation toward zero. */
  function TruncToInt(r: real): (i: int)
    ensures 0.0 <= r ==> 0 <= i && i as real <= r < i as real + 1.0
    ensures r < 0.0 ==> i <= 0 && i as real - 1.0 < r <= i as real
  {
    if r >= 0.0 then r.Floor else -((-r).Floor)
  }

  /** One image of a stack (a 2D numpy array), pixel values as integers. */
  type Slice = seq<seq<int>>

  /** The exceptions the core raises or lets escape. */
  datatype PyError =
    | KeyError(key: string)
    | IndexError
    | ValueError(message: string)
    | TypeError(message: string)
    | AttributeError(message: string)

  /** The error `int(s)` raises for a string that is not an integer. */
  function InvalidIntLiteral(s: string): PyError
  {
    ValueError(InvalidIntMessage + s + "'")
  }

  const InvalidIntMessage := "invalid literal for int() with base 10: '"

  /** Python's `xs[i]` on a list of length n: a negative i counts from the
      end, anything outside [-n, n) raises IndexError. */
  function PyIndex(n: nat, i: int): (r: Option<nat>)
    ensures r.Some? <==> -(n as int) <= i < n
    ensures r.Some? ==> r.value < n && (if i >= 0 then r.value == i else r.value == i + n)
  {
    if 0 <= i < n then Some(i) else if -(n as int) <= i < 0 then Some(i + n) else None
  }
}
