/** The dynamically typed values that flow between the pipeline's stages.

    The stages of the email pipeline hand each other whatever the language-model
    library returns: a pydantic model object, a raw string that may hold JSON, a plain
    dictionary, or anything else. This module models those values and the few Python
    operations the orchestrator applies to them (truthiness, `hasattr(v, "dict")`,
    `v.dict()`, `v.get(key)` and `v[key]`), together with the Option/Outcome wrappers
    used for partial operations and exceptions.
 */
module Values {

  /** An optional value; `None` also stands for a failed parse. */
  datatype Option<+T> = None | Some(value: T)

  /** The outcome of an operation that may raise: `Err` carries the exception. */
  datatype Outcome<+T, +E> = Ok(value: T) | Err(error: E)

  /** A Python value as seen by the orchestrator.
      - `VModel` is a pydantic model instance: `className` is its class and `fields`
        is what its `.dict()` method returns.
      - `VObject` is any other object, with neither a `dict` nor a `get` attribute.
   */
  datatype Value =
    | VNone
    | VBool(b: bool)
    | VInt(i: int)
    | VStr(s: string)
    | VList(items: seq<Value>)
    | VDict(entries: map<string, Value>)
    | VModel(className: string, fields: map<string, Value>)
    | VObject(typeName: string)

  /** Python's truth value: empty containers, zero, `False` and `None` are falsy;
      model instances and other objects are truthy (neither defines `__bool__`). */
  predicate Truthy(v: Value) {
    match v
    case VNone => false
    case VBool(b) => b
    case VInt(i) => i != 0
    case VStr(s) => s != ""
    case VList(items) => items != []
    case VDict(entries) => entries != map[]
    case VModel(_, _) => true
    case VObject(_) => true
  }

  /** `hasattr(v, "dict")`: only pydantic models carry a `dict` method. */
  predicate HasDictMethod(v: Value) {
    v.VModel?
  }

  /** The name `type(v).__name__` reports, used in Python's error messages. */
  function TypeName(v: Value): string {
    match v
    case VNone => "NoneType"
    case VBool(_) => "bool"
    case VInt(_) => "int"
    case VStr(_) => "str"
    case VList(_) => "list"
    case VDict(_) => "dict"
    case VModel(c, _) => c
    case VObject(t) => t
  }

  /** The message of the AttributeError raised by `v.get` when `v` has no `get`. */
  function NoGetMessage(v: Value): string {
    "'" + TypeName(v) + "' object has no attribute 'get'"
  }

  /** `v.get(key)`: defined on dictionaries only, yielding `None` for a missing key;
      on every other value the attribute lookup raises. */
  function Get(v: Value, key: string): (r: Outcome<Value, string>)
    ensures r.Ok? <==> v.VDict?
    ensures r.Ok? && key in v.entries ==> r.value == v.entries[key]
    ensures r.Ok? && key !in v.entries ==> r.value == VNone
    ensures r.Err? ==> r.error == NoGetMessage(v)
  {
    match v
    case VDict(entries) => Ok(if key in entries then entries[key] else VNone)
    case _ => Err(NoGetMessage(v))
  }

  /** Why a subscript `v[key]` with a string key fails. */
  datatype LookupError =
    | KeyMissing(key: string)          // KeyError on a dictionary
    | NotSubscriptable(typeName: string) // TypeError on anything else

  /** `v[key]` for a string key: a dictionary yields the entry or raises KeyError;
      lists, strings, models and the rest raise TypeError. */
  function Subscript(v: Value, key: string): (r: Outcome<Value, LookupError>)
    ensures r.Ok? <==> v.VDict? && key in v.entries
    ensures r.Ok? ==> r.value == v.entries[key]
    ensures r.Err? && v.VDict? ==> r.error == KeyMissing(key)
    ensures r.Err? && !v.VDict? ==> r.error == NotSubscriptable(TypeName(v))
  {
    match v
    case VDict(entries) =>
      if key in entries then Ok(entries[key]) else Err(KeyMissing(key))
    case _ => Err(NotSubscriptable(TypeName(v)))
  }
}
