/**
  What `fetch` sends and what it settles with. The network itself is not
  modelled: every operation receives the settled outcome as a parameter.
 */
module Http {
  import opened Values

  datatype Method = Get | Post

  type Header = (string, string)

  /** A request: method, URL, headers in the order the source lists them, and an optional JSON body. */
  datatype Request<B> = Request(verb: Method, url: string, headers: seq<Header>, body: Option<B>)

  /** The `Authorization: token <key>` header of the Greenfield API. */
  function Authorization(key: string): Header {
    ("Authorization", "token " + key)
  }

  const JsonContent: Header := ("Content-Type", "application/json")

  /**
    A response body seen through `response.json()`: either a JSON object, of
    which the model keeps the record the code reads on success and its
    `message` field, which the code reads on failure; or text that is not JSON,
    on which `response.json()` rejects with a `SyntaxError`.
   */
  datatype Body<T> = Json(record: T, message: Option<string>) | NotJson(syntaxError: string)

  /** A received response: status code, the body as `response.text()` gives it, and the parsed body. */
  datatype Response<T> = Response(status: nat, text: string, body: Body<T>) {
    /** `response.ok`. */
    predicate Ok() {
      200 <= status <= 299
    }
  }

  /** `await response.json()`. */
  function ReadJson<T>(r: Response<T>): (v: Result<T, Thrown>)
    ensures r.body.Json? <==> v.Success?
    ensures v.Success? ==> v.value == r.body.record
    ensures r.body.NotJson? ==> v == Failure(Error(r.body.syntaxError))
  {
    match r.body
    case Json(record, _) => Success(record)
    case NotJson(e) => Failure(Error(e))
  }

  /** How `await fetch(...)` settles: with a response, or by rejecting (network failure). */
  type Fetched<T> = Result<Response<T>, Thrown>
}
