/**
 * Vocabulary shared by every handler of the API: optional values, document
 * ids, JavaScript truthiness of request strings, and handler replies.
 */
module Shared {

  /** A value that may be absent (`undefined` / `null` in the service). */
  datatype Option<+T> = None | Some(value: T) {

    /** The value, or `default` when absent. */
    function GetOr(default: T): T {
      match this
      case Some(v) => v
      case None => default
    }
  }

  /**
   * A document id in its string form, as the handlers compare ids with
   * `String(..)`. A stored id is an ObjectId's canonical rendering: 24
   * lower-case hexadecimal digits.
   */
  type Id = string

  predicate IsHexDigit(c: char) {
    '0' <= c <= '9' || 'a' <= c <= 'f' || 'A' <= c <= 'F'
  }

  /**
   * Whether a string supplied by a request casts to an ObjectId (24 hexadecimal
   * digits); any other string makes the database driver raise a CastError.
   */
  predicate IsObjectId(s: string) {
    |s| == 24 && forall i :: 0 <= i < |s| ==> IsHexDigit(s[i])
  }

  /** A hexadecimal digit as an ObjectId renders it: `A`..`F` become `a`..`f`. */
  function LowerHex(c: char): (r: char)
    ensures IsHexDigit(c) <==> IsHexDigit(r)
    ensures !('A' <= r <= 'F')
    ensures c == r <==> !('A' <= c <= 'F')
  {
    if 'A' <= c <= 'F' then (c as int - 'A' as int + 'a' as int) as char else c
  }

  /**
   * The id a request string casts to. The driver parses the hexadecimal
   * digits whatever their case, so the id that reaches a query is the
   * lower-case rendering of the string.
   */
  function CastId(s: string): (r: Id)
    ensures |r| == |s|
    ensures forall i :: 0 <= i < |s| ==> r[i] == LowerHex(s[i])
    decreases |s|
  {
    if |s| == 0 then "" else [LowerHex(s[0])] + CastId(s[1..])
  }

  /** Casting keeps a valid id valid, and a cast id casts to itself. */
  lemma CastIdCanonical(s: string)
    ensures IsObjectId(s) <==> IsObjectId(CastId(s))
    ensures CastId(CastId(s)) == CastId(s)
  {
  }

  /** An id as the database renders it: a valid ObjectId already in its cast form. */
  predicate IsCanonicalId(s: string) {
    IsObjectId(s) && CastId(s) == s
  }

  /** JavaScript truthiness of an optional string: present and not "". */
  predicate Truthy(s: Option<string>) {
    s.Some? && s.value != ""
  }

  /** The `message` of an error reply. */
  datatype Message =
    | Text(text: string)
      /** The first detail message of a failed schema validation, whose wording belongs to the schema library. */
    | SchemaDetail

  /** What a handler sends back: a status code with a body, or a status code with a message. */
  datatype Reply<+T> = Ok(status: int, body: T) | Err(status: int, message: Message)

  /** The reply every handler's catch-all gives for an unexpected failure. */
  function ServerError<T>(): Reply<T> {
    Err(500, Text("Server Error"))
  }
}
