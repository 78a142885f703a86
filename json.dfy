/**
 * JSON values as Python's `json` module produces them (dict, list, str, int,
 * bool, None), with the parts of Python's semantics the services apply to
 * them: the `in` operator, subscription by a string key and `isinstance(v, list)`.
 * Floating-point numbers are not modelled.
 */
module Json {
  import opened Wrappers
  import Text

  datatype Json =
    | JNull
    | JBool(b: bool)
    | JNum(n: int)
    | JStr(s: string)
    | JArr(items: seq<Json>)
    | JObj(fields: map<string, Json>)

  /** The exceptions Python raises for these operators on the wrong kind of value. */
  datatype PyError = TypeError | KeyError

  /** `isinstance(v, list)` */
  predicate IsList(v: Json) {
    v.JArr?
  }

  /**
   * Python `key in v` for a string `key`: key membership for a dict, element
   * equality for a list, substring for a str; any other value raises TypeError.
   */
  function In(key: string, v: Json): (r: Result<bool, PyError>)
    ensures r.Err? <==> !(v.JObj? || v.JArr? || v.JStr?)
    ensures v.JObj? ==> r == Ok(key in v.fields)
    ensures v.JArr? ==> r == Ok(JStr(key) in v.items)
    ensures v.JStr? ==> r == Ok(Text.Includes(v.s, key))
    ensures v.JStr? && |key| > |v.s| ==> r == Ok(false)
  {
    match v
    case JObj(m) => Ok(key in m)
    case JArr(xs) => Ok(JStr(key) in xs)
    case JStr(s) =>
      assert |key| > |s| ==> !Text.Includes(s, key) by {
        if |key| > |s| { Text.IncludesTooLong(s, key); }
      }
      Ok(Text.Includes(s, key))
    case _ => Err(TypeError)
  }

  /**
   * Python `all(key in v for key in keys)`: the keys are tried in order and the
   * first `in` that raises ends the evaluation with that exception.
   */
  function HasAll(v: Json, keys: seq<string>): (r: Result<bool, PyError>)
    requires |keys| > 0
    ensures r.Err? <==> In(keys[0], v).Err?
    ensures r == Ok(true) <==> forall j :: 0 <= j < |keys| ==> In(keys[j], v) == Ok(true)
  {
    match In(keys[0], v)
    case Err(e) => Err(e)
    case Ok(b) =>
      if !b then Ok(false)
      else if |keys| == 1 then Ok(true)
      else
        var rest := HasAll(v, keys[1..]);
        assert forall j :: 1 <= j < |keys| ==> keys[j] == keys[1..][j - 1];
        rest
  }

  /** Python `v[key]` for a string `key`. */
  function GetItem(v: Json, key: string): (r: Result<Json, PyError>)
    ensures r.Ok? <==> v.JObj? && key in v.fields
    ensures r.Ok? ==> r.value == v.fields[key]
    ensures r.Err? && v.JObj? ==> r.error == KeyError
    ensures r.Err? && !v.JObj? ==> r.error == TypeError
  {
    match v
    case JObj(m) => if key in m then Ok(m[key]) else Err(KeyError)
    case _ => Err(TypeError)
  }
}
