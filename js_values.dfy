/**
 * The JavaScript values the tools see: JSON data (tool arguments, vendor
 * payloads), the truthiness tests the handlers apply with `if (x)` and `||`,
 * property reads that throw on `null`/`undefined`, and thrown errors as a
 * `catch` block sees them.
 */
module JsValues {
  import opened Wrappers

  /**
   * A JSON value. Numbers are exact reals, not IEEE doubles: the rounding,
   * overflow to Infinity and underflow to 0 of number literals are not modelled.
   */
  datatype Json =
    | JNull
    | JBool(b: bool)
    | JNum(n: real)
    | JStr(s: string)
    | JArr(items: seq<Json>)
    | JObj(fields: map<string, Json>)

  /** JavaScript truthiness; `None` stands for `undefined`. */
  predicate Truthy(v: Option<Json>)
  {
    match v
    case None => false
    case Some(JNull) => false
    case Some(JBool(b)) => b
    case Some(JNum(n)) => n != 0.0
    case Some(JStr(s)) => s != ""
    case Some(JArr(_)) => true
    case Some(JObj(_)) => true
  }

  /** Truthiness of an optional string argument: present and non-empty. */
  predicate TruthyString(s: Option<string>)
  {
    s.Some? && s.value != ""
  }

  /** Truthiness of an optional number argument: present and non-zero. */
  predicate TruthyNumber(n: Option<real>)
  {
    n.Some? && n.value != 0.0
  }

  /** The message of the TypeError a property read on `null` or `undefined` throws. */
  function ReadError(receiver: string, key: string): string
  {
    "Cannot read properties of " + receiver + " (reading '" + key + "')"
  }

  /**
   * `recv[key]` for the keys the handlers read: named properties, `length`
   * and index `0`. `Ok(None)` is `undefined`; reading from `null` or
   * `undefined` throws, giving `Err` with the TypeError's message.
   */
  function GetProp(recv: Option<Json>, key: string): (r: Result<Option<Json>, string>)
    ensures r.Err? <==> recv.None? || recv == Some(JNull)
    ensures r.Err? ==> r.error != ""
    ensures (recv.Some? && recv.value.JObj?) ==>
              r == Ok(if key in recv.value.fields then Some(recv.value.fields[key]) else None)
  {
    match recv
    case None => Err(ReadError("undefined", key))
    case Some(JNull) => Err(ReadError("null", key))
    case Some(JObj(m)) => Ok(if key in m then Some(m[key]) else None)
    case Some(JArr(items)) =>
      if key == "length" then Ok(Some(JNum(|items| as real)))
      else if key == "0" && |items| > 0 then Ok(Some(items[0]))
      else Ok(None)
    case Some(JStr(s)) =>
      if key == "length" then Ok(Some(JNum(|s| as real)))
      else if key == "0" && |s| > 0 then Ok(Some(JStr([s[0]])))
      else Ok(None)
    case Some(_) => Ok(None)
  }

  /**
   * `x > 0` for the value of a `length` property. Strings, arrays and objects
   * would be converted to numbers first; those conversions are not modelled
   * and compare as false.
   */
  predicate PositiveLength(v: Option<Json>)
  {
    match v
    case Some(JNum(n)) => n > 0.0
    case Some(JBool(b)) => b
    case _ => false
  }

  /** A caught value: its `message` property (`None` if undefined) and `String(value)`. */
  datatype Thrown = Thrown(message: Option<string>, rendered: string)

  /** An `Error` object of the given class; `String(e)` omits an empty message. */
  function ErrorObject(name: string, message: string): Thrown
  {
    Thrown(Some(message), if message == "" then name else name + ": " + message)
  }

  /** `error.message || String(error)`. */
  function MessageOrString(t: Thrown): string
  {
    if TruthyString(t.message) then t.message.value else t.rendered
  }

  /**
   * `JSON.stringify(v)` and `JSON.parse(text)`, taken as given: `parse`
   * fails with the SyntaxError's message.
   */
  datatype JsonCodec = JsonCodec(
    stringify: Json -> string,
    parse: string -> Result<Json, string>)

  /** Tool results: a list of content blocks of type "text". */
  datatype ContentBlock =
    | Text(text: string)
      /** a "text" block whose `text` holds a value that is not a string (`None`: undefined) */
    | NonStringText(value: Option<Json>)

  datatype ToolResult = ToolResult(content: seq<ContentBlock>)

  /** A result made of exactly one string-valued text block. */
  function TextResult(text: string): ToolResult
  {
    ToolResult([Text(text)])
  }

  predicate StartsWith(s: string, prefix: string)
  {
    |prefix| <= |s| && s[..|prefix|] == prefix
  }
}
