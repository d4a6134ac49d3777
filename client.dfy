/**
 * `NetToolKitClient`: the connection settings every request reads (API key, protocol, timeout),
 * the URL they lead to, and the request its `send…` helpers build.
 */
module ApiClient {
  import opened Wrappers
  import opened JsonData
  import opened Errors
  import opened Http

  const DefaultTimeout := 3000
  const Hostname := "api.nettoolkit.com"

  /** A text that is neither null nor empty. */
  predicate IsPresent(s: Option<string>)
  {
    s.Some? && |s.value| > 0
  }

  class NetToolKitClient {
    var apiKey: string
    var useHttps: bool
    /** Milliseconds. */
    var timeout: int

    /** `NetToolKitClient(apiKey)`: HTTPS, and the default timeout. */
    constructor (apiKey: string)
      ensures this.apiKey == apiKey && useHttps && timeout == DefaultTimeout
    {
      this.apiKey := apiKey;
      useHttps := true;
      timeout := DefaultTimeout;
    }

    /** `NetToolKitClient(apiKey, useHttps)`. */
    constructor WithProtocol(apiKey: string, useHttps: bool)
      ensures this.apiKey == apiKey && this.useHttps == useHttps && timeout == DefaultTimeout
    {
      this.apiKey := apiKey;
      this.useHttps := useHttps;
      timeout := DefaultTimeout;
    }

    method SetApiKey(apiKey: string)
      modifies this
      ensures this.apiKey == apiKey && useHttps == old(useHttps) && timeout == old(timeout)
    {
      this.apiKey := apiKey;
    }

    method SetUseHttps(useHttps: bool)
      modifies this
      ensures this.useHttps == useHttps && apiKey == old(apiKey) && timeout == old(timeout)
    {
      this.useHttps := useHttps;
    }

    method SetTimeout(timeout: int)
      modifies this
      ensures this.timeout == timeout && apiKey == old(apiKey) && useHttps == old(useHttps)
    {
      this.timeout := timeout;
    }

    /** `getProtocol()`. */
    function Protocol(): (r: string)
      reads this
    {
      if useHttps then "https://" else "http://"
    }

    /** `getBaseUrl()`: the protocol and the fixed host name. */
    function BaseUrl(): (r: string)
      reads this
    {
      Protocol() + Hostname
    }

    /** `buildUrl(path)`. */
    function BuildUrl(path: string): (r: string)
      reads this
    {
      BaseUrl() + path
    }

    /**
     * The request `sendHttpRequest` builds: a query is appended after `?` and a body attached only
     * when they are neither null nor empty, and `Content-Type` is set only when a content type is given.
     */
    function RequestOf(m: HttpMethod, path: string, query: Option<string>, body: Option<string>, ct: Option<ContentType>)
      : (r: Result<HttpRequest, Error>)
      reads this
      ensures r.Success? <==> timeout > 0
      ensures r.Success? ==> r.value.httpMethod == m && r.value.timeoutMs == timeout
      ensures r.Success? ==> r.value.url == if IsPresent(query) then BuildUrl(path) + "?" + query.value else BuildUrl(path)
      ensures r.Success? ==> r.value.body == if IsPresent(body) then body else None
      ensures r.Success? ==> r.value.headers.Keys == {KeyHeader, AcceptHeader} + if ct.Some? then {ContentTypeHeader} else {}
      ensures r.Success? ==> r.value.headers[KeyHeader] == apiKey && r.value.headers[AcceptHeader] == Mime(JsonContent)
      ensures r.Success? && ct.Some? ==> r.value.headers[ContentTypeHeader] == Mime(ct.value)
    {
      var url := if IsPresent(query) then BuildUrl(path) + "?" + query.value else BuildUrl(path);
      Build(m, url, if IsPresent(body) then body else None, WithContentType(BaseHeaders(apiKey), ct), timeout)
    }

    /**
     * `sendHttpRequest`: build the request step by step and hand it to `transport`, which stands
     * for `HttpClient.send` and gives `None` where that throws an `IOException`.
     */
    method SendHttpRequest(
      transport: HttpRequest -> Option<string>, m: HttpMethod, path: string,
      query: Option<string>, body: Option<string>, ct: Option<ContentType>)
      returns (r: Result<string, Error>)
      ensures r == Transmit(transport, RequestOf(m, path, query, body, ct))
    {
      var url := BuildUrl(path);
      if query.Some? && |query.value| > 0 {
        url := url + "?" + query.value;
      }
      var payload: Option<string> := None;
      if body.Some? && |body.value| > 0 {
        payload := body;
      }
      var headers := map[];
      headers := headers[KeyHeader := apiKey];
      headers := headers[AcceptHeader := Mime(JsonContent)];
      if ct.Some? {
        headers := headers[ContentTypeHeader := Mime(ct.value)];
      }
      var request := Build(m, url, payload, headers, timeout);
      if request.Failure? {
        return Failure(request.error);
      }
      var answer := transport(request.value);
      if answer.None? {
        return Failure(ApiConnection(ConnectionFault));
      }
      r := Success(answer.value);
    }
  }

  /** Sending a built request: a transport failure becomes an `ApiConnectionException`. */
  function Transmit(transport: HttpRequest -> Option<string>, request: Result<HttpRequest, Error>): (r: Result<string, Error>)
    ensures request.Failure? ==> r == Failure(request.error)
    ensures request.Success? && transport(request.value).None? ==> r == Failure(ApiConnection(ConnectionFault))
    ensures request.Success? && transport(request.value).Some? ==> r == Success(transport(request.value).value)
  {
    match request
    case Failure(e) => Failure(e)
    case Success(h) =>
      match transport(h)
      case None => Failure(ApiConnection(ConnectionFault))
      case Some(text) => Success(text)
  }

  /** The protocol is `https://` exactly when HTTPS is on, and `http://` otherwise. */
  lemma ProtocolIff(c: NetToolKitClient)
    ensures c.Protocol() == "https://" <==> c.useHttps
    ensures !c.useHttps ==> c.Protocol() == "http://"
  {
    if !c.useHttps {
      assert c.Protocol()[4] != "https://"[4];
    }
  }

  /** A default client sends to `https://api.nettoolkit.com` followed by the path. */
  lemma DefaultUrl(c: NetToolKitClient, path: string)
    requires c.useHttps
    ensures c.BuildUrl(path) == "https://api.nettoolkit.com" + path
  {
  }

  // The `send…` helpers: which method, query, body and content type each passes on.

  /** `sendGet(path)` and `sendGet(path, query)`. */
  function GetRequestOf(c: NetToolKitClient, path: string, query: Option<string>): (r: Result<HttpRequest, Error>)
    reads c
  {
    c.RequestOf(GET, path, query, None, None)
  }

  /** `sendDelete(path)` and `sendDelete(path, query)`. */
  function DeleteRequestOf(c: NetToolKitClient, path: string, query: Option<string>): (r: Result<HttpRequest, Error>)
    reads c
  {
    c.RequestOf(DELETE, path, query, None, None)
  }

  /** `sendPost(path, body)` / `sendPut(path, body)` with a String body: form content. */
  function TextRequestOf(c: NetToolKitClient, m: HttpMethod, path: string, body: Option<string>): (r: Result<HttpRequest, Error>)
    reads c
    requires m == POST || m == PUT
  {
    c.RequestOf(m, path, None, body, Some(FormContent))
  }

  /** `sendPost(path, json)` / `sendPut(path, json)` with a JSONObject body: its text, as JSON content. */
  function JsonRequestOf(c: NetToolKitClient, m: HttpMethod, path: string, body: Object): (r: Result<HttpRequest, Error>)
    reads c
    requires m == POST || m == PUT
  {
    c.RequestOf(m, path, None, Some(Text(JObj(body))), Some(JsonContent))
  }

  /**
   * GET and DELETE helpers send no `Content-Type` and no body; POST and PUT send form content for
   * a String body and JSON for a JSONObject body, and never a query.
   */
  lemma HelperContentTypes(c: NetToolKitClient, m: HttpMethod, path: string, query: Option<string>, text: Option<string>, body: Object)
    requires c.timeout > 0 && (m == POST || m == PUT)
    ensures ContentTypeHeader !in GetRequestOf(c, path, query).value.headers
    ensures ContentTypeHeader !in DeleteRequestOf(c, path, query).value.headers
    ensures GetRequestOf(c, path, query).value.body.None? && DeleteRequestOf(c, path, query).value.body.None?
    ensures TextRequestOf(c, m, path, text).value.headers[ContentTypeHeader] == "application/x-www-form-urlencoded"
    ensures JsonRequestOf(c, m, path, body).value.headers[ContentTypeHeader] == "application/json"
    ensures JsonRequestOf(c, m, path, body).value.body == Some(Text(JObj(body)))
    ensures TextRequestOf(c, m, path, text).value.url == c.BuildUrl(path)
  {
  }

  /** An empty query adds nothing to the URL, not even `?`. */
  lemma EmptyQueryNoQuestionMark(c: NetToolKitClient, path: string)
    requires c.timeout > 0
    ensures GetRequestOf(c, path, Some("")).value.url == c.BuildUrl(path)
    ensures GetRequestOf(c, path, None).value.url == c.BuildUrl(path)
  {
  }
}
