/**
 * JSON request bodies, and the building blocks of the schema predicates that
 * stand for the handlers' request validation.
 */
module Json {
  import opened Shared

  datatype Json =
    | JNull
    | JBool(b: bool)
    | JNum(n: real)
    | JStr(s: string)
    | JArr(items: seq<Json>)
    | JObj(fields: map<string, Json>)

  /** The field `key` of an object, absent for a missing key or a non-object. */
  function Field(v: Json, key: string): (r: Option<Json>)
    ensures r.Some? <==> v.JObj? && key in v.fields
    ensures r.Some? ==> r.value == v.fields[key]
  {
    if v.JObj? && key in v.fields then Some(v.fields[key]) else None
  }

  /** A plain schema string: a string other than "" (the schema library refuses "" unless allowed). */
  predicate IsNonEmptyString(v: Json) {
    v.JStr? && v.s != ""
  }

  /** `Number.MAX_SAFE_INTEGER`, 2^53 - 1: the largest integer a double holds exactly. */
  const MaxSafeInteger: real := 9007199254740991.0

  /**
   * A number the schema library's `number()` accepts: by default it refuses
   * any value beyond plus or minus `MaxSafeInteger`, fractional or not.
   */
  predicate IsSchemaNumber(v: Json) {
    v.JNum? && -MaxSafeInteger <= v.n <= MaxSafeInteger
  }

  /** An integral number. */
  predicate IsInteger(v: Json) {
    v.JNum? && v.n.Floor as real == v.n
  }

  /** `key` is present and holds a non-empty string. */
  predicate HasNonEmptyString(v: Json, key: string) {
    Field(v, key).Some? && IsNonEmptyString(Field(v, key).value)
  }

  /** `key` is either absent or holds a string ("" allowed). */
  predicate OptionalString(v: Json, key: string) {
    Field(v, key).None? || Field(v, key).value.JStr?
  }

  /** `key` is either absent or holds a non-empty string. */
  predicate OptionalNonEmptyString(v: Json, key: string) {
    Field(v, key).None? || IsNonEmptyString(Field(v, key).value)
  }

  /** The string held by `key`, if it holds one. */
  function StringField(v: Json, key: string): (r: Option<string>)
    ensures r.Some? <==> Field(v, key).Some? && Field(v, key).value.JStr?
    ensures r.Some? ==> Field(v, key).value == JStr(r.value)
  {
    match Field(v, key)
    case Some(JStr(s)) => Some(s)
    case _ => None
  }
}
