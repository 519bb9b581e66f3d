/** Python values as the agents handle them: what `json.loads` returns for
    a model's reply, and the dict/list/str/number operations the core
    applies to it, with the exceptions those operations raise on a value of
    the wrong type. */
module Values {
  import opened Wrappers
  import Text

  /** A JSON value. Python's ints and floats are both `Num`; a dict's key
      order only matters for serialisation, which is not modelled. */
  datatype Value =
    | Null
    | Bool(b: bool)
    | Num(n: real)
    | Str(s: string)
    | Arr(items: seq<Value>)
    | Obj(fields: map<string, Value>)

  /** The exceptions the modelled code can raise or let through. */
  datatype Error =
    | AttributeError          // `.get` on a value that is not a dict
    | TypeError               // arithmetic, `in` or `[]` on a value of the wrong type
    | ValueError(message: string)

  const EmptyObj: Value := Obj(map[])

  /** `str(e)`. The text Python gives an `AttributeError` or a `TypeError`
      names the offending type; here it is a fixed description. */
  function ErrorText(e: Error): string {
    match e
    case AttributeError => "object has no attribute 'get'"
    case TypeError => "unsupported operand type"
    case ValueError(message) => message
  }

  /** `d.get(key, default)`. */
  function Get(d: Value, key: string, default: Value): (r: Result<Value, Error>)
    ensures r.Err? <==> !d.Obj?
    ensures r.Err? ==> r.error == AttributeError
    ensures r.Ok? && key in d.fields ==> r.value == d.fields[key]
    ensures r.Ok? && key !in d.fields ==> r.value == default
  {
    if !d.Obj? then Err(AttributeError)
    else if key in d.fields then Ok(d.fields[key])
    else Ok(default)
  }

  /** The entry `key` of a dict, or `default` when it is absent (the
      value `d.get(key, default)` has once `d` is known to be a dict). */
  function FieldOr(d: Value, key: string, default: Value): Value {
    if d.Obj? && key in d.fields then d.fields[key] else default
  }

  /** `v` is a dict whose entry `key` is `x`. */
  predicate HasField(v: Value, key: string, x: Value) {
    v.Obj? && key in v.fields && v.fields[key] == x
  }

  /** `d.get(outer, {})` can be followed by `.get(...)`: `d` is a dict and
      its entry `outer`, if any, is a dict too. */
  predicate PathOk(d: Value, outer: string) {
    d.Obj? && (outer in d.fields ==> d.fields[outer].Obj?)
  }

  /** The entry `d[outer][inner]` exists. */
  predicate Has(d: Value, outer: string, inner: string) {
    d.Obj? && outer in d.fields && d.fields[outer].Obj? && inner in d.fields[outer].fields
  }

  /** `d.get(outer, {}).get(inner, default)`: the nested entry when it is
      there, the default when either level is missing, and
      `AttributeError` when a level on the way is not a dict. */
  function GetPath(d: Value, outer: string, inner: string, default: Value): (r: Result<Value, Error>)
    ensures r.Err? <==> !PathOk(d, outer)
    ensures r.Err? ==> r.error == AttributeError
    ensures r.Ok? && Has(d, outer, inner) ==> r.value == d.fields[outer].fields[inner]
    ensures r.Ok? && !Has(d, outer, inner) ==> r.value == default
  {
    var inner_dict :- Get(d, outer, EmptyObj);
    Get(inner_dict, inner, default)
  }

  /** Python's `bool(v)`: `None`, `False`, zero and empty containers are
      false, everything else is true. */
  predicate Truthy(v: Value) {
    match v
    case Null => false
    case Bool(b) => b
    case Num(n) => n != 0.0
    case Str(s) => s != ""
    case Arr(items) => items != []
    case Obj(fields) => fields != map[]
  }

  /** `len(v)`: defined on strings, lists and dicts; other values raise
      `TypeError`. */
  function Len(v: Value): (r: Result<nat, Error>)
    ensures r.Err? <==> !(v.Str? || v.Arr? || v.Obj?)
    ensures r.Err? ==> r.error == TypeError
    ensures r.Ok? && v.Arr? ==> r.value == |v.items|
    ensures r.Ok? && v.Str? ==> r.value == |v.s|
    ensures r.Ok? && v.Obj? ==> r.value == |v.fields|
  {
    match v
    case Str(s) => Ok(|s|)
    case Arr(items) => Ok(|items|)
    case Obj(fields) => Ok(|fields|)
    case _ => Err(TypeError)
  }

  /** The value as an operand of `+` or `*`: numbers as they are, `True` and
      `False` as 1 and 0, anything else raises `TypeError`. */
  function AsNumber(v: Value): Result<real, Error> {
    match v
    case Num(n) => Ok(n)
    case Bool(b) => Ok(if b then 1.0 else 0.0)
    case _ => Err(TypeError)
  }

  /** `key in container` for a string `key`: a dict tests its keys, a list
      its elements, a string its substrings; other values raise. */
  function In(key: string, container: Value): Result<bool, Error> {
    match container
    case Obj(fields) => Ok(key in fields)
    case Arr(items) => Ok(Str(key) in items)
    case Str(s) => Ok(Text.Contains(s, key))
    case _ => Err(TypeError)
  }

  /** `container[key]` for a string `key`, after `key in container` held. */
  function Subscript(container: Value, key: string): Result<Value, Error> {
    if container.Obj? && key in container.fields then Ok(container.fields[key])
    else Err(TypeError)
  }
}
