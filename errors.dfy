/**
 * Response normalisation: turning a registry response into the validated
 * data or into one error message.
 *
 * The `fetch` response is an input value: whether it is ok, its status and
 * status text, what `response.json()` resolves to (or that it rejects,
 * because the body is not JSON, and the message of the `SyntaxError` it
 * rejects with) and what `response.text()` resolves to.
 */
module ApiErrors {
  import opened Wrappers
  import opened JsValues
  import Schemas

  datatype Response = Response(
    ok: bool,
    status: nat,
    statusText: string,
    /** The parsed JSON body; `None` when `response.json()` rejects. */
    json: Option<Value>,
    /** The message of the `SyntaxError` `response.json()` rejects with; the engine words it, often quoting the body. */
    jsonError: string,
    /** The raw body text. */
    text: string)

  /** The result of a schema's `safeParse`: the data, or every issue found. */
  datatype SafeParse<+T> = Success(data: T) | Failure(issues: seq<Schemas.Issue>)

  /** What the `try` blocks can throw. */
  datatype Thrown =
    | JsonSyntaxError(message: string)
    | DetailedError(details: Value)
    | ErrorWithMessage(message: string)

  const REQUEST_FAILED := "API request failed: "
  const VALIDATION_FAILED := "API response validation failed: "
  const INVALID_DATA_FORMAT := "Invalid data format"
  const PARSE_FAILED := "Failed to parse API response: "

  // ---------------------------------------------------------------------------
  // Strings

  function Digit(d: nat): (c: char)
    requires d < 10
    ensures '0' <= c <= '9' && c as int - '0' as int == d
  {
    ('0' as int + d) as char
  }

  /** `String(n)` for a natural number: its decimal digits, no leading zeros. */
  function DecimalString(n: nat): (s: string)
    ensures |s| >= 1 && forall i :: 0 <= i < |s| ==> '0' <= s[i] <= '9'
    ensures |s| > 1 ==> s[0] != '0'
  {
    if n < 10 then [Digit(n)] else DecimalString(n / 10) + [Digit(n % 10)]
  }

  /** The number a string of decimal digits denotes. */
  function DecimalValue(s: string): nat
    requires forall i :: 0 <= i < |s| ==> '0' <= s[i] <= '9'
  {
    if s == [] then 0 else 10 * DecimalValue(s[..|s| - 1]) + (s[|s| - 1] as int - '0' as int)
  }

  /** Reading the decimal string back gives the status code again. */
  lemma {:induction false} DecimalRoundTrip(n: nat)
    ensures DecimalValue(DecimalString(n)) == n
  {
    if n >= 10 {
      var s := DecimalString(n);
      assert s[..|s| - 1] == DecimalString(n / 10);
      DecimalRoundTrip(n / 10);
    }
  }

  /** Whether `sub` occurs in `s` starting at index `i`. */
  predicate OccursAt(s: string, sub: string, i: nat) {
    i + |sub| <= |s| && s[i..i + |sub|] == sub
  }

  /** `s.includes(sub)` */
  ghost predicate Includes(s: string, sub: string) {
    exists i: nat :: OccursAt(s, sub, i)
  }

  /** A search from index `from` on, the executable form of `includes`. */
  function IndexOf(s: string, sub: string, from: nat): (r: Option<nat>)
    decreases |s| - from
    ensures r.Some? ==> from <= r.value && OccursAt(s, sub, r.value)
    ensures r.None? ==> forall i: nat :: from <= i ==> !OccursAt(s, sub, i)
  {
    if from + |sub| > |s| then None
    else if s[from..from + |sub|] == sub then Some(from)
    else IndexOf(s, sub, from + 1)
  }

  function IncludesText(s: string, sub: string): (b: bool)
    ensures b <==> Includes(s, sub)
  {
    IndexOf(s, sub, 0).Some?
  }

  // ---------------------------------------------------------------------------
  // handleResponse

  /** The ` <statusText> (<status>)` part of every failure message. */
  function StatusSuffix(response: Response): string {
    response.statusText + " (" + DecimalString(response.status) + ")"
  }

  /**
   * `ClientErrorResponseSchema`: `detail` when it is a string or an array, `{}`
   * when it is an object (`z.object({})` strips every key it does not list),
   * else the whole body.
   */
  function ErrorDetails(errorData: Value): Value {
    var detail := Get(errorData, "detail");
    if IsObjectLike(errorData) && (detail.Str? || detail.Array?) then detail
    else if IsObjectLike(errorData) && IsObjectLike(detail) then Object([])
    else errorData
  }

  /** An object `detail` comes out of the schema with none of its properties. */
  lemma ObjectDetailStripped(fields: seq<Field>)
    ensures ErrorDetails(Object([Field("detail", Object(fields))])) == Object([])
  {
    LookupAt([Field("detail", Object(fields))], 0);
  }

  /** The `try` of the failure branch: read the JSON body, then throw a message with its detail. */
  function FailureTry(response: Response): Thrown {
    match response.json
    case None => JsonSyntaxError(response.jsonError)
    case Some(errorData) => DetailedError(ErrorDetails(errorData))
  }

  /** The bare `catch` of the failure branch: whatever was thrown, throw the text-body message. */
  function FailureCatch(response: Response, thrown: Thrown): string {
    REQUEST_FAILED + StatusSuffix(response) + ": " + response.text
  }

  /** The `try` of the success branch: read the JSON body and validate it. */
  function SuccessTry<T>(response: Response, schema: Value -> SafeParse<T>): (r: Result<T, Thrown>)
    ensures r.Err? && r.error.ErrorWithMessage? ==> IncludesText(r.error.message, "validation failed")
  {
    match response.json
    case None => Err(JsonSyntaxError(response.jsonError))
    case Some(data) =>
      match schema(data)
      case Success(d) => Ok(d)
      case Failure(issues) =>
        var errorMessage := if |issues| > 0 then issues[0].message else INVALID_DATA_FORMAT;
        ValidationMessagePassesThrough(errorMessage);
        Err(ErrorWithMessage(VALIDATION_FAILED + errorMessage))
  }

  /**
   * The `catch` of the success branch: an error whose message mentions
   * "validation failed" passes through, whichever error it is; anything
   * else becomes a parse failure.
   */
  function SuccessCatch(response: Response, thrown: Thrown): string {
    if (thrown.ErrorWithMessage? || thrown.JsonSyntaxError?) && IncludesText(thrown.message, "validation failed")
    then thrown.message
    else PARSE_FAILED + StatusSuffix(response)
  }

  /** `handleResponse(response, schema)`: the validated data, or the message of the error it throws. */
  function HandleResponse<T>(response: Response, schema: Value -> SafeParse<T>): (r: Result<T, string>)
    ensures !response.ok ==> r == Err(REQUEST_FAILED + StatusSuffix(response) + ": " + response.text)
    ensures response.ok && response.json.Some? && schema(response.json.value).Success? ==>
      r == Ok(schema(response.json.value).data)
    ensures response.ok && response.json.Some? && schema(response.json.value).Failure? ==>
      var issues := schema(response.json.value).issues;
      r == Err(VALIDATION_FAILED + if |issues| > 0 then issues[0].message else INVALID_DATA_FORMAT)
    ensures response.ok && response.json.None? ==>
      r == Err(if IncludesText(response.jsonError, "validation failed") then response.jsonError
               else PARSE_FAILED + StatusSuffix(response))
  {
    if !response.ok then
      Err(FailureCatch(response, FailureTry(response)))
    else
      match SuccessTry(response, schema)
      case Ok(data) => Ok(data)
      case Err(thrown) => Err(SuccessCatch(response, thrown))
  }

  /** The validation message always contains "validation failed", so the `catch` rethrows it unchanged. */
  lemma ValidationMessagePassesThrough(errorMessage: string)
    ensures IncludesText(VALIDATION_FAILED + errorMessage, "validation failed")
  {
    assert OccursAt(VALIDATION_FAILED + errorMessage, "validation failed", 13);
  }

  /** A failed response ends with the text body: the JSON `detail` never reaches the caller. */
  lemma FailureIgnoresJsonBody<T>(response: Response, json: Option<Value>, jsonError: string,
                                  schema: Value -> SafeParse<T>)
    requires !response.ok
    ensures HandleResponse(response.(json := json, jsonError := jsonError), schema) == HandleResponse(response, schema)
  {
  }

  /** A failed response's message starts with the request-failed prefix and names the status text and code. */
  lemma FailureMessageNamesStatus<T>(response: Response, schema: Value -> SafeParse<T>)
    requires !response.ok
    ensures HandleResponse(response, schema).Err?
    ensures var m := HandleResponse(response, schema).error;
      && m[..|REQUEST_FAILED|] == REQUEST_FAILED
      && Includes(m, response.statusText)
      && Includes(m, "(" + DecimalString(response.status) + ")")
  {
    var m := HandleResponse(response, schema).error;
    var k := |REQUEST_FAILED|;
    assert OccursAt(m, response.statusText, k);
    assert OccursAt(m, "(" + DecimalString(response.status) + ")", k + |response.statusText| + 1);
  }

  // ---------------------------------------------------------------------------
  // handleVoidResponse

  /** `z.void().nullable()`: only `undefined` and `null` pass. */
  function VoidSchema(p: Schemas.Platform): (schema: Value -> SafeParse<()>)
    ensures forall v :: schema(v).Success? <==> v in {Undefined, Null}
  {
    (v: Value) =>
      if v == Undefined || v == Null then Success(())
      else Failure([Schemas.Issue(Schemas.InvalidType("void"), [], p.defaultMessage(Schemas.InvalidType("void")))])
  }

  /** `handleVoidResponse(response)`: succeeds exactly for an ok response whose body is `null` or `undefined`. */
  function HandleVoidResponse(p: Schemas.Platform, response: Response): (r: Result<(), string>)
    ensures r.Ok? <==> response.ok && response.json.Some? && response.json.value in {Undefined, Null}
    ensures !response.ok ==> r == Err(REQUEST_FAILED + StatusSuffix(response) + ": " + response.text)
  {
    HandleResponse(response, VoidSchema(p))
  }
}
