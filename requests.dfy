/**
 * `BaseApiRequest` and its GET, DELETE, POST and PUT forms: each request owns a fresh parameter
 * bag, serialises it for its verb, and becomes an HTTP request for the client it was made with.
 */
module Requests {
  import opened Wrappers
  import opened JsonData
  import opened UrlEncoding
  import opened ParameterBag
  import opened Errors
  import opened Http
  import opened ApiClient
  import opened Responses

  /** The request's class: `GetRequest`, `DeleteRequest`, `PostRequest` or `PutRequest`, with its content type. */
  datatype Verb = Get | Delete | Post(contentType: ContentType) | Put(contentType: ContentType)

  /** `getHttpMethod()`. */
  function MethodOf(v: Verb): HttpMethod
  {
    match v
    case Get => GET
    case Delete => DELETE
    case Post(_) => POST
    case Put(_) => PUT
  }

  /** The parameters travel in the query string for GET and DELETE. */
  predicate UsesQuery(v: Verb)
  {
    MethodOf(v) == GET || MethodOf(v) == DELETE
  }

  /** `serializeParameters()`: form encoding, except JSON text for a JSON content type. */
  function Serialized(v: Verb, p: Parameters): (r: string)
    reads p
    requires p.Valid()
    ensures (v.Post? || v.Put?) && v.contentType == JsonContent ==> r == Text(JObj(p.ToJson()))
    ensures !((v.Post? || v.Put?) && v.contentType == JsonContent) ==> r == FormText(FormPairs(p.values, p.order))
  {
    match v
    case Post(JsonContent) | Put(JsonContent) => Text(JObj(p.ToJson()))
    case _ => FormText(FormPairs(p.values, p.order))
  }

  /** The headers: a `Content-Type` for POST and PUT, then the API key and `Accept`. */
  function RequestHeaders(v: Verb, apiKey: string): (r: map<string, string>)
  {
    WithContentType(BaseHeaders(apiKey), if v.Post? || v.Put? then Some(v.contentType) else None)
  }

  /**
   * `toHttpRequest()` given the client's base URL, key and timeout, the path and the serialised
   * parameters: GET and DELETE append `?` and the parameters to the URL even when they are empty,
   * POST and PUT send them as the body.
   */
  function RequestFrom(baseUrl: string, apiKey: string, timeoutMs: int, v: Verb, path: string, serialized: string)
    : (r: Result<HttpRequest, Error>)
    ensures r.Success? <==> timeoutMs > 0
    ensures r.Failure? ==> r.error == Thrown(ArgumentFault)
    ensures r.Success? ==> r.value.httpMethod == MethodOf(v) && r.value.timeoutMs == timeoutMs
    ensures r.Success? && UsesQuery(v) ==> r.value.url == baseUrl + path + "?" + serialized && r.value.body.None?
    ensures r.Success? && !UsesQuery(v) ==> r.value.url == baseUrl + path && r.value.body == Some(serialized)
    ensures r.Success? ==> r.value.headers.Keys == {KeyHeader, AcceptHeader} + if UsesQuery(v) then {} else {ContentTypeHeader}
    ensures r.Success? ==> r.value.headers[KeyHeader] == apiKey && r.value.headers[AcceptHeader] == "application/json"
    ensures r.Success? && !UsesQuery(v) ==> r.value.headers[ContentTypeHeader] == Mime(v.contentType)
  {
    var url := if UsesQuery(v) then baseUrl + path + "?" + serialized else baseUrl + path;
    Build(MethodOf(v), url, if UsesQuery(v) then None else Some(serialized), RequestHeaders(v, apiKey), timeoutMs)
  }

  /** Sending a request and reading the answer as a version 1 response. */
  function Exchange(transport: HttpRequest -> Option<string>, parse: string -> Option<Json>, request: Result<HttpRequest, Error>)
    : (r: Result<ApiResponse, Error>)
    ensures request.Failure? ==> r == Failure(request.error)
    ensures Transmit(transport, request).Success? ==> r == NewApiResponse(parse, Some(Transmit(transport, request).value))
    ensures request.Success? && r.Failure? ==> r.error.ApiConnection? || r.error.Api? || r.error.Parsing?
  {
    match Transmit(transport, request)
    case Failure(e) => Failure(e)
    case Success(text) => NewApiResponse(parse, Some(text))
  }

  /** Sending a request and reading the answer as a version 2 response. */
  function ExchangeV2(transport: HttpRequest -> Option<string>, parse: string -> Option<Json>, request: Result<HttpRequest, Error>)
    : (r: Result<ApiV2Response, Error>)
    ensures request.Failure? ==> r == Failure(request.error)
    ensures Transmit(transport, request).Success? ==> r == NewApiV2Response(parse, Some(Transmit(transport, request).value))
    ensures request.Success? && r.Failure? ==> r.error.ApiConnection? || r.error.ApiV2? || r.error.Parsing?
  {
    match Transmit(transport, request)
    case Failure(e) => Failure(e)
    case Success(text) => NewApiV2Response(parse, Some(text))
  }

  class ApiRequest {
    const client: NetToolKitClient
    const params: Parameters
    const verb: Verb

    ghost predicate Valid()
      reads this, params
    {
      params.Valid()
    }

    /** Every request starts with a parameter bag of its own, empty. */
    constructor (client: NetToolKitClient, verb: Verb)
      ensures Valid() && this.client == client && this.verb == verb
      ensures fresh(params) && params.values == map[] && params.order == []
    {
      this.client := client;
      this.verb := verb;
      params := new Parameters();
    }

    /** The request `toHttpRequest()` builds for the given path. */
    function Spec(path: string): (r: Result<HttpRequest, Error>)
      reads this, params, client
      requires Valid()
    {
      RequestFrom(client.BaseUrl(), client.apiKey, client.timeout, verb, path, Serialized(verb, params))
    }

    /** `toHttpRequest()`: serialise the parameters first, then build URL, body, headers and timeout. */
    method ToHttpRequest(path: string) returns (r: Result<HttpRequest, Error>)
      requires Valid()
      ensures r == Spec(path)
    {
      var serialized: string;
      match verb {
        case Post(JsonContent) =>
          serialized := Text(JObj(params.ToJson()));
        case Put(JsonContent) =>
          serialized := Text(JObj(params.ToJson()));
        case _ =>
          serialized := params.ToWwwFormUrlencoded();
      }
      var url := client.BaseUrl() + path;
      if verb.Get? || verb.Delete? {
        url := url + "?" + serialized;
      }
      var body: Option<string>;
      if verb.Post? || verb.Put? {
        body := Some(serialized);
      } else {
        body := None;
      }
      var headers := map[KeyHeader := client.apiKey];
      headers := headers[AcceptHeader := Mime(JsonContent)];
      if verb.Post? || verb.Put? {
        headers := headers[ContentTypeHeader := Mime(verb.contentType)];
      }
      assert serialized == Serialized(verb, params);
      assert headers == RequestHeaders(verb, client.apiKey);
      r := Build(MethodOf(verb), url, body, headers, client.timeout);
    }

    /** `NetToolKitClient.send(request)`: build, transmit, and read a version 1 response. */
    method Send(transport: HttpRequest -> Option<string>, parse: string -> Option<Json>, path: string)
      returns (r: Result<ApiResponse, Error>)
      requires Valid()
      ensures r == Exchange(transport, parse, Spec(path))
    {
      var request := ToHttpRequest(path);
      if request.Failure? {
        return Failure(request.error);
      }
      var answer := transport(request.value);
      if answer.None? {
        return Failure(ApiConnection(ConnectionFault));
      }
      r := NewApiResponse(parse, Some(answer.value));
    }

    /** `sendV2(request)`: the same, with the answer read as a version 2 response. */
    method SendV2(transport: HttpRequest -> Option<string>, parse: string -> Option<Json>, path: string)
      returns (r: Result<ApiV2Response, Error>)
      requires Valid()
      ensures r == ExchangeV2(transport, parse, Spec(path))
    {
      var request := ToHttpRequest(path);
      if request.Failure? {
        return Failure(request.error);
      }
      var answer := transport(request.value);
      if answer.None? {
        return Failure(ApiConnection(ConnectionFault));
      }
      r := NewApiV2Response(parse, Some(answer.value));
    }
  }

  /** A GET or DELETE with an empty bag still ends its URL with `?`. */
  lemma EmptyQueryKeepsQuestionMark(baseUrl: string, apiKey: string, timeoutMs: int, v: Verb, path: string, p: Parameters)
    requires p.Valid() && p.values == map[] && UsesQuery(v) && timeoutMs > 0
    ensures RequestFrom(baseUrl, apiKey, timeoutMs, v, path, Serialized(v, p)).value.url == baseUrl + path + "?"
  {
    assert p.order == [] by {
      OrderingEmptyIff(p.order, p.values.Keys);
    }
  }

  /**
   * For an empty bag the request classes and the client's own `sendGet` disagree on the URL:
   * the former ends it with `?`, the latter adds nothing.
   */
  lemma RequestAndHelperUrlsDiffer(c: NetToolKitClient, path: string, p: Parameters)
    requires p.Valid() && p.values == map[] && c.timeout > 0
    ensures RequestFrom(c.BaseUrl(), c.apiKey, c.timeout, Get, path, Serialized(Get, p)).value.url
      == GetRequestOf(c, path, Some(Serialized(Get, p))).value.url + "?"
  {
    EmptyQueryKeepsQuestionMark(c.BaseUrl(), c.apiKey, c.timeout, Get, path, p);
  }

  /** A POST or PUT always carries a body, even an empty one, where the client's helpers would send none. */
  lemma BodyAlwaysAttached(baseUrl: string, apiKey: string, timeoutMs: int, v: Verb, path: string, serialized: string)
    requires !UsesQuery(v) && timeoutMs > 0
    ensures RequestFrom(baseUrl, apiKey, timeoutMs, v, path, serialized).value.body == Some(serialized)
    ensures serialized == "" ==> RequestFrom(baseUrl, apiKey, timeoutMs, v, path, serialized).value.body == Some("")
  {
  }
}
