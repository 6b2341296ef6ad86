/** The request wrapper `apiRequest` of src/App.jsx (lines 12-34): the requests
    the screens send, and how a raw HTTP response becomes the outcome a handler
    sees, either `Ok(data)` or `Err(message)`. The network itself and the JSON
    parser are outside the model: a response carries the parse outcome of its text. */
module Api {
  import opened Js

  datatype HttpMethod = Get | Post | Patch | Delete

  /** An opaque handle for the file picked in a file input. */
  datatype ResumeFile = ResumeFile(name: string)

  datatype Part = Text(text: string) | FilePart(file: ResumeFile)

  /** The request body: none (`if (body)` fails for `null`), a JSON object, or
      multipart form data whose text fields `FormData.append` has turned into strings. */
  datatype Body = NoBody | Json(value: JsValue) | Multipart(parts: seq<(string, Part)>)

  /** One call of `fetch(API_BASE + path, ...)`, by its path after the fixed
      base address; headers are not modelled. */
  datatype Request = Request(verb: HttpMethod, path: string, body: Body)

  /** What `JSON.parse` makes of a response text. */
  datatype Parse = Parsed(value: JsValue) | SyntaxError(message: string)

  /** What `fetch` resolves to: a rejection (the request did not complete) or a response. */
  datatype FetchResult =
    | NetworkError(message: string)
    | Response(ok: bool, status: nat, text: string, json: Parse)

  /** `await response.json().catch(() => ({}))`: an unparsable error body reads as `{}`. */
  function ErrorBody(p: Parse): (v: JsValue)
    ensures p.Parsed? ==> v == p.value
    ensures p.SyntaxError? ==> v == Obj(map[])
  {
    match p
    case Parsed(v) => v
    case SyntaxError(_) => Obj(map[])
  }

  /** The message of the error thrown for a non-ok response:
      `errorData.error || errorData.message || "Ошибка: " + status`. Reading a
      property of a `null` body throws a TypeError, whose message is thrown instead. */
  function ErrorMessage(errorData: JsValue, status: nat): (m: string)
    ensures errorData.Nullish() ==> m == ReadError(errorData, "error")
    ensures !errorData.Nullish() && Truthy(OptionalMember(errorData, "error")) ==>
      m == ToStr(OptionalMember(errorData, "error"))
    ensures (!errorData.Nullish() && !Truthy(OptionalMember(errorData, "error"))
             && Truthy(OptionalMember(errorData, "message"))) ==>
      m == ToStr(OptionalMember(errorData, "message"))
    ensures (!errorData.Nullish() && !Truthy(OptionalMember(errorData, "error"))
             && !Truthy(OptionalMember(errorData, "message"))) ==>
      m == "Ошибка: " + Decimal(status)
  {
    match Member(errorData, "error")
    case Err(te) => te
    case Ok(e) =>
      var chosen := Or(Or(e, Member(errorData, "message").value), Str("Ошибка: " + Decimal(status)));
      ToStr(chosen)
  }

  /** `await apiRequest(...)` seen from the caller: the parsed body, `{}` for an
      empty body, or the message of the error it throws. */
  function Interpret(r: FetchResult): (res: Result<JsValue>)
    ensures res.Ok? <==> r.Response? && r.ok && (r.text == "" || r.json.Parsed?)
    ensures r.NetworkError? ==> res == Err(r.message)
    ensures r.Response? && !r.ok ==> res == Err(ErrorMessage(ErrorBody(r.json), r.status))
    ensures r.Response? && r.ok && r.text == "" ==> res == Ok(Obj(map[]))
    ensures r.Response? && r.ok && r.text != "" ==>
      res == (match r.json case Parsed(v) => Ok(v) case SyntaxError(msg) => Err(msg))
  {
    match r
    case NetworkError(msg) => Err(msg)
    case Response(ok, status, text, json) =>
      if !ok then Err(ErrorMessage(ErrorBody(json), status))
      else if text == "" then Ok(Obj(map[]))
      else match json
        case Parsed(v) => Ok(v)
        case SyntaxError(msg) => Err(msg)
  }

  /** An ok response with an empty body never fails and always yields `{}`, so a
      caller reading a field of it reads `undefined` rather than throwing. */
  lemma EmptyOkBodyIsEmptyObject(status: nat, json: Parse, key: string)
    ensures Interpret(Response(true, status, "", json)) == Ok(Obj(map[]))
    ensures Member(Interpret(Response(true, status, "", json)).value, key) == Ok(Undefined)
  {
  }

  /** A non-ok response is an error whatever its body says, with the backend's
      `error` field taking precedence over its `message` field. */
  lemma ErrorFieldWins(status: nat, text: string, e: string, m: string)
    requires e != ""
    ensures Interpret(Response(false, status, text, Parsed(Obj(map["error" := Str(e), "message" := Str(m)])))) == Err(e)
  {
  }
}
