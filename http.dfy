/**
 * The HTTP request the SDK hands to `java.net.http.HttpClient`: method, URL, optional body,
 * headers and timeout, as `HttpRequest.Builder` assembles them.
 */
module Http {
  import opened Wrappers
  import opened Errors

  /** The verbs the SDK uses. */
  datatype HttpMethod = GET | POST | PUT | DELETE

  /** `name()`. */
  function MethodName(m: HttpMethod): string
  {
    match m
    case GET => "GET"
    case POST => "POST"
    case PUT => "PUT"
    case DELETE => "DELETE"
  }

  /** `HttpContentType`. */
  datatype ContentType = JsonContent | FormContent

  /** `getValue()`: the MIME type. */
  function Mime(ct: ContentType): string
  {
    match ct
    case JsonContent => "application/json"
    case FormContent => "application/x-www-form-urlencoded"
  }

  const KeyHeader := "X-NTK-KEY"
  const AcceptHeader := "Accept"
  const ContentTypeHeader := "Content-Type"

  /** A built request; `body` is `None` for `BodyPublishers.noBody()`. */
  datatype HttpRequest = HttpRequest(
    httpMethod: HttpMethod,
    url: string,
    body: Option<string>,
    headers: map<string, string>,
    timeoutMs: int)

  /** The headers every request carries: the API key, and `Accept` for a JSON answer. */
  function BaseHeaders(apiKey: string): (r: map<string, string>)
    ensures r.Keys == {KeyHeader, AcceptHeader}
    ensures r[KeyHeader] == apiKey && r[AcceptHeader] == Mime(JsonContent)
  {
    map[KeyHeader := apiKey, AcceptHeader := Mime(JsonContent)]
  }

  /** The headers with a `Content-Type` added when a content type is given. */
  function WithContentType(headers: map<string, string>, ct: Option<ContentType>): (r: map<string, string>)
    ensures ct.None? ==> r == headers
    ensures ct.Some? ==> r == headers[ContentTypeHeader := Mime(ct.value)]
  {
    match ct
    case None => headers
    case Some(c) => headers[ContentTypeHeader := Mime(c)]
  }

  /**
   * `builder.timeout(Duration.ofMillis(timeoutMs))` followed by `build()`: the builder refuses a
   * duration that is zero or negative with an `IllegalArgumentException`.
   */
  function Build(m: HttpMethod, url: string, body: Option<string>, headers: map<string, string>, timeoutMs: int)
    : (r: Result<HttpRequest, Error>)
    ensures r.Success? <==> timeoutMs > 0
    ensures r.Success? ==> r.value == HttpRequest(m, url, body, headers, timeoutMs)
    ensures r.Failure? ==> r.error == Thrown(ArgumentFault)
  {
    if timeoutMs <= 0 then Failure(Thrown(ArgumentFault))
    else Success(HttpRequest(m, url, body, headers, timeoutMs))
  }
}
