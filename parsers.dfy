/**
 * Response classifiers: src/network/DefaultDataParser.ts and src/network/StringDataParser.ts, and
 * the shape of every parser of the chain (src/network/DataParser.ts).
 */
module Parsers {
  import opened Wrappers
  import opened Json
  import opened Decimal

  /** `result.status` as the transport reports it: a number or a string. */
  datatype Status = Code(n: int) | Text(s: string)

  /** `String(result.status)`. */
  function StatusString(st: Status): string {
    match st
    case Code(n) => IntToString(n)
    case Text(s) => s
  }

  /** `String(status) === "200"` holds for exactly the number 200 and the string "200". */
  lemma StatusIsOk(st: Status)
    ensures StatusString(st) == "200" <==> st == Code(200) || st == Text("200")
  {
    if st.Code? && StatusString(st) == "200" {
      assert IntToString(200) == "200";
      IntToStringInjective(st.n, 200);
    }
  }

  /** What the transport hands to the completion callback on success. */
  datatype Response = Response(status: Status, data: Json, headers: map<string, string>)

  /** What the transport hands to the completion callback on failure; its content is not inspected. */
  datatype TransportError = TransportError(reason: string)

  /**
   * Which callback a parser's `dataParser` invoked: none, `success(data)` or
   * `fail(code, errorMessage, data)`.
   */
  datatype Resolution = NoCallback | Succeeded(data: Json) | Failed(code: string, message: string, data: Json)

  const HttpErrorMessage: string := "HTTP 错误"

  /** The code reported when there is no response at all, only a transport error. */
  const NoResponseCode: string := "-1"

  /**
   * A parser of the chain. `StringParser` is given the serialiser that plays the part of
   * `JSON.stringify`, which gives no text for some values; `CustomParser` stands for any user-written parser, as its
   * `isParser` and `dataParser` behave.
   */
  datatype Parser =
    | DefaultParser
    | StringParser(serialise: Json -> Option<string>)
    | CustomParser(matches: Option<Response> -> bool,
                   resolve: (Option<Response>, Option<TransportError>) -> Resolution)

  /** `isParser(result)`: both built-in parsers accept every result. */
  function IsParser(p: Parser, result: Option<Response>): (r: bool)
    ensures !p.CustomParser? ==> r
  {
    match p
    case CustomParser(m, _) => m(result)
    case _ => true
  }

  /** `dataParser(result, error, success, fail)`, as the callback it invokes. */
  function Resolve(p: Parser, result: Option<Response>, error: Option<TransportError>): (r: Resolution)
    ensures !p.CustomParser? ==>
              (r.Succeeded? <==> result.Some? && (result.value.status == Code(200) || result.value.status == Text("200")))
    ensures !p.CustomParser? ==> (r.NoCallback? <==> result.None? && error.None?)
  {
    match p
    case DefaultParser => DefaultResolve(result, error)
    case StringParser(f) => StringResolve(f, result, error)
    case CustomParser(_, res) => res(result, error)
  }

  /** DefaultDataParser.dataParser. */
  function DefaultResolve(result: Option<Response>, error: Option<TransportError>): (r: Resolution)
    ensures r.Succeeded? <==> result.Some? && (result.value.status == Code(200) || result.value.status == Text("200"))
    ensures r.Succeeded? ==> r.data == result.value.data
    ensures r.Failed? ==> r.message == HttpErrorMessage && r.data == Undefined
    ensures r.Failed? && result.Some? ==> r.code == StatusString(result.value.status)
    ensures r.Failed? && result.None? ==> r.code == NoResponseCode
    ensures r.NoCallback? <==> result.None? && error.None?
  {
    if result.Some? then
      StatusIsOk(result.value.status);
      if StatusString(result.value.status) == "200" then Succeeded(result.value.data)
      else Failed(StatusString(result.value.status), HttpErrorMessage, Undefined)
    else if error.Some? then Failed(NoResponseCode, HttpErrorMessage, Undefined)
    else NoCallback
  }

  /**
   * What `success(JSON.stringify(data))` hands on: the serialised text, or `undefined` when
   * `JSON.stringify` gives `undefined` (as it does for `undefined` itself).
   */
  function Stringified(text: Option<string>): Json {
    match text
    case Some(t) => Str(t)
    case None => Undefined
  }

  /**
   * StringDataParser.dataParser classifies exactly as DefaultDataParser does; on success it
   * hands on the serialised payload instead of the payload.
   */
  function StringResolve(serialise: Json -> Option<string>, result: Option<Response>, error: Option<TransportError>): (r: Resolution)
    ensures r == match DefaultResolve(result, error)
                 case Succeeded(d) => Succeeded(Stringified(serialise(d)))
                 case other => other
  {
    if result.Some? then
      StatusIsOk(result.value.status);
      if StatusString(result.value.status) == "200" then Succeeded(Stringified(serialise(result.value.data)))
      else Failed(StatusString(result.value.status), HttpErrorMessage, Undefined)
    else if error.Some? then Failed(NoResponseCode, HttpErrorMessage, Undefined)
    else NoCallback
  }
}
