/**
 A parsed JSON value as Python's `json.load` hands it to the script, together
 with the few pieces of Python behaviour the script relies on: the runtime type
 name `type(v).__name__`, truthiness, and the subscript and `.keys()` operations
 together with the exceptions they raise on wrongly shaped values.
 */
module Json {

  datatype Option<T> = None | Some(value: T)

  /** The Python exception an operation on a wrongly shaped value raises. */
  datatype Fault = KeyError | TypeError | IndexError | AttributeError

  datatype Result<T> = Ok(value: T) | Err(error: Fault)

  /** JSON as Python sees it: null, bool, int, float, str, list, dict. */
  datatype Json =
    | JNull
    | JBool(b: bool)
    | JInt(i: int)
    | JFloat(f: real)
    | JStr(s: string)
    | JArr(elems: seq<Json>)
    | JObj(fields: map<string, Json>)

  /** `type(v).__name__` for the Python object `json.load` builds from `v`. */
  function TypeLabel(v: Json): (r: string)
    ensures r in {"NoneType", "bool", "int", "float", "str", "list", "dict"}
  {
    match v
    case JNull => "NoneType"
    case JBool(_) => "bool"
    case JInt(_) => "int"
    case JFloat(_) => "float"
    case JStr(_) => "str"
    case JArr(_) => "list"
    case JObj(_) => "dict"
  }

  /** The label names the kind of value: two values share a label exactly when
      they are built by the same constructor. */
  lemma LabelDeterminesKind(a: Json, b: Json)
    ensures TypeLabel(a) == TypeLabel(b) <==>
      && (a.JNull? <==> b.JNull?) && (a.JBool? <==> b.JBool?)
      && (a.JInt? <==> b.JInt?) && (a.JFloat? <==> b.JFloat?)
      && (a.JStr? <==> b.JStr?) && (a.JArr? <==> b.JArr?)
      && (a.JObj? <==> b.JObj?)
  {
  }

  /** Python's `bool(v)`: exactly the seven empty or zero values are falsy. */
  predicate Truthy(v: Json)
  {
    match v
    case JNull => false
    case JBool(b) => b
    case JInt(i) => i != 0
    case JFloat(f) => f != 0.0
    case JStr(s) => |s| > 0
    case JArr(a) => |a| > 0
    case JObj(m) => |m| > 0
  }

  /** The falsy values are exactly the seven empty or zero ones. */
  lemma FalsyValues(v: Json)
    ensures !Truthy(v) <==>
      v in {JNull, JBool(false), JInt(0), JFloat(0.0), JStr(""), JArr([]), JObj(map[])}
  {
  }

  /** `v[key]` for a string key: only a dict with that key answers; a dict
      without it raises KeyError, every other kind TypeError. */
  function Subscript(v: Json, key: string): (r: Result<Json>)
    ensures r.Ok? <==> v.JObj? && key in v.fields
    ensures r.Ok? ==> r.value == v.fields[key]
    ensures r.Err? ==> r.error == (if v.JObj? then KeyError else TypeError)
  {
    match v
    case JObj(m) => if key in m then Ok(m[key]) else Err(KeyError)
    case _ => Err(TypeError)
  }

  /** `v[0]`: the first element of a list, the first character of a str (as a
      one-character str), KeyError on a dict (JSON keys are never the integer
      0), IndexError on an empty list or str, TypeError on a scalar. */
  function First(v: Json): (r: Result<Json>)
    ensures r.Ok? <==> (v.JArr? && |v.elems| > 0) || (v.JStr? && |v.s| > 0)
    ensures r.Ok? && v.JArr? ==> r.value == v.elems[0]
    ensures r.Ok? && v.JStr? ==> r.value == JStr([v.s[0]])
    ensures r.Err? ==> r.error == (if v.JArr? || v.JStr? then IndexError
                                  else if v.JObj? then KeyError else TypeError)
  {
    match v
    case JArr(a) => if |a| > 0 then Ok(a[0]) else Err(IndexError)
    case JStr(s) => if |s| > 0 then Ok(JStr([s[0]])) else Err(IndexError)
    case JObj(_) => Err(KeyError)
    case _ => Err(TypeError)
  }

  /** `v.keys()` together with `v[k]` on those keys: only a dict has them; any
      other value raises AttributeError. */
  function Fields(v: Json): (r: Result<map<string, Json>>)
    ensures r.Ok? <==> v.JObj?
    ensures r.Ok? ==> r.value == v.fields
    ensures r.Err? ==> r.error == AttributeError
  {
    match v
    case JObj(m) => Ok(m)
    case _ => Err(AttributeError)
  }
}
