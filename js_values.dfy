/** JavaScript values as the site sees them once `response.json()` or
    `JSON.parse` has produced them, with the handful of JavaScript
    operators the pages apply to them: truthiness, property reads,
    `||` and `Array.isArray`. */
module JsValues {

  /** `undefined` is `None`; every other value is `Some`. */
  datatype Option<+T> = None | Some(value: T)

  /** A JSON value. Numbers are reals (JSON has no NaN or infinities);
      objects are maps, so a duplicated key keeps one value as
      `JSON.parse` does. */
  datatype Json =
    | JNull
    | JBool(b: bool)
    | JNum(n: real)
    | JStr(s: string)
    | JArr(items: seq<Json>)
    | JObj(fields: map<string, Json>)

  /** JavaScript truthiness: `null`, `false`, `0` and `""` are falsy,
      every array and every object (even an empty one) is truthy. */
  predicate Truthy(j: Json)
  {
    match j
    case JNull => false
    case JBool(b) => b
    case JNum(n) => n != 0.0
    case JStr(s) => s != ""
    case JArr(_) => true
    case JObj(_) => true
  }

  /** Truthiness of a value that may be `undefined` (which is falsy). */
  predicate TruthyOpt(v: Option<Json>)
  {
    v.Some? && Truthy(v.value)
  }

  /** `Array.isArray(v)`. */
  predicate IsArray(v: Option<Json>)
  {
    v.Some? && v.value.JArr?
  }

  /** `typeof v === 'object'` for a value already known to be truthy
      (`null`, the one falsy object, is excluded by the caller). */
  predicate IsObjectLike(v: Option<Json>)
  {
    v.Some? && (v.value.JArr? || v.value.JObj?)
  }

  /** `j.key` for a value that is not `null`: an object looks the key up,
      every other value (array, string, number, boolean) has no such
      property. The pages only read `data`, `success`, `treks`, `items`,
      `status`, `token`, `message` and similar keys, none of which is a
      built-in property of strings or arrays. */
  function Get(j: Json, key: string): Option<Json>
  {
    if j.JObj? && key in j.fields then Some(j.fields[key]) else None
  }

  /** `v.key` where `v` may itself be `undefined`; only ever used behind a
      truthiness test, so it never reads a property of `undefined`. */
  function GetOpt(v: Option<Json>, key: string): Option<Json>
  {
    if v.Some? then Get(v.value, key) else None
  }

  /** `a || b`: the left operand when it is truthy, else the right one. */
  function Or(a: Option<Json>, b: Option<Json>): Option<Json>
  {
    if TruthyOpt(a) then a else b
  }

  /** `a || fallback` with a fallback that is a definite value. */
  function OrElse(a: Option<Json>, fallback: Json): Json
  {
    if TruthyOpt(a) then a.value else fallback
  }

  /** The empty array literal `[]`. */
  const EmptyArray: Json := JArr([])
}
