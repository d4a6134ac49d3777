/**
 * `CreateChannelRequest`: a JSON POST that creates a dashboard channel. Each `type…` setter
 * stores the channel type's name and, except for the simple type, a fresh `preferences`
 * object built member by member, where a null argument leaves its member out.
 */
module ChannelRequests {
  import opened Wrappers
  import opened JsonData
  import opened ParameterBag
  import opened Errors
  import opened Http
  import opened ApiClient
  import opened Responses
  import opened Requests
  import opened ChannelTypes
  import G = GatekeeperRequests

  const ChannelsPath := "/v1/dashboards/channels"

  /** An `HttpHeader`: a key and a value, either of which may be null. */
  datatype HttpHeader = HttpHeader(key: Option<string>, value: Option<string>)

  /** A string argument as a JSON member: `put(key, null)` leaves the member out. */
  function TextMember(s: Option<string>): (r: Option<Json>)
    ensures r.Some? <==> s.Some?
    ensures r.Some? ==> r.value == JStr(s.value)
  {
    if s.Some? then Some(JStr(s.value)) else None
  }

  /** A `TimeUnit` argument as a JSON member: the constant, which the JSON text shows by its name. */
  function UnitMember(u: Option<G.TimeUnit>): (r: Option<Json>)
    ensures r.Some? <==> u.Some?
    ensures r.Some? ==> r.value == JStr(G.UnitName(u.value))
  {
    if u.Some? then Some(JStr(G.UnitName(u.value))) else None
  }

  /** The preferences of `typeSsl(url)`. */
  function SslPreferences(url: Option<string>): (r: Object)
    ensures r.Keys == if url.Some? then {"url"} else {}
    ensures url.Some? ==> r["url"] == JStr(url.value)
  {
    JsonData.Put(map[], "url", TextMember(url))
  }

  /** The preferences of `typePing(host, n, unit)`: the time is always there. */
  function PingPreferences(host: Option<string>, n: int, unit: Option<G.TimeUnit>): (r: Object)
    ensures "time" in r && r["time"] == JNum(n)
    ensures host.Some? ==> "domain" in r && r["domain"] == JStr(host.value)
    ensures unit.Some? ==> "time_unit" in r && r["time_unit"] == JStr(G.UnitName(unit.value))
    ensures r.Keys == {"time"} + (if host.Some? then {"domain"} else {}) + (if unit.Some? then {"time_unit"} else {})
  {
    JsonData.Put(JsonData.Put(JsonData.Put(map[], "domain", TextMember(host)), "time", Some(JNum(n))), "time_unit", UnitMember(unit))
  }

  /** The preferences of `typeHttp(…)`: the header list is not among them. */
  function HttpPreferences(httpMethod: Option<string>, url: Option<string>, body: Option<string>, n: int, unit: Option<G.TimeUnit>)
    : (r: Object)
    ensures "time" in r && r["time"] == JNum(n)
    ensures httpMethod.Some? ==> "http_method" in r && r["http_method"] == JStr(httpMethod.value)
    ensures url.Some? ==> "url" in r && r["url"] == JStr(url.value)
    ensures body.Some? ==> "http_body" in r && r["http_body"] == JStr(body.value)
    ensures unit.Some? ==> "time_unit" in r && r["time_unit"] == JStr(G.UnitName(unit.value))
    ensures forall k :: k in r <==>
      k == "time" || (k == "http_method" && httpMethod.Some?) || (k == "url" && url.Some?) ||
      (k == "http_body" && body.Some?) || (k == "time_unit" && unit.Some?)
  {
    var p1 := JsonData.Put(map[], "http_method", TextMember(httpMethod));
    var p2 := JsonData.Put(p1, "url", TextMember(url));
    var p3 := JsonData.Put(p2, "http_body", TextMember(body));
    var p4 := JsonData.Put(p3, "time", Some(JNum(n)));
    JsonData.Put(p4, "time_unit", UnitMember(unit))
  }

  /** `HttpHeader.toJson()`: the key and the value, each left out when null. */
  function HeaderJson(h: HttpHeader): (r: Object)
    ensures forall k :: k in r <==> (k == "key" && h.key.Some?) || (k == "value" && h.value.Some?)
    ensures h.key.Some? ==> r["key"] == JStr(h.key.value)
    ensures h.value.Some? ==> r["value"] == JStr(h.value.value)
  {
    JsonData.Put(JsonData.Put(map[], "key", TextMember(h.key)), "value", TextMember(h.value))
  }

  /** The JSON array `typeHttp` builds from the header list: one object per header, in order. */
  function HeadersJson(headers: seq<HttpHeader>): (r: seq<Json>)
  {
    seq(|headers|, i requires 0 <= i < |headers| => JObj(HeaderJson(headers[i])))
  }

  /**
   * The preferences `typeHttp(…)` evidently means to store: the ones it stores, plus the
   * converted header list under `headers` when a list is given.
   */
  function IntendedHttpPreferences(
    httpMethod: Option<string>, url: Option<string>, headers: Option<seq<HttpHeader>>,
    body: Option<string>, n: int, unit: Option<G.TimeUnit>): Object
  {
    var p := HttpPreferences(httpMethod, url, body, n, unit);
    if headers.Some? then p["headers" := JArr(HeadersJson(headers.value))] else p
  }

  /**
   * With the header list stored, the preferences carry `headers` exactly when a list is given,
   * as one object per header with its key and value, in list order; every other member is the
   * one `typeHttp` stores today.
   */
  lemma HttpHeadersKept(
    httpMethod: Option<string>, url: Option<string>, headers: Option<seq<HttpHeader>>,
    body: Option<string>, n: int, unit: Option<G.TimeUnit>)
    ensures var r := IntendedHttpPreferences(httpMethod, url, headers, body, n, unit);
      ("headers" in r <==> headers.Some?) &&
      (headers.Some? ==>
        (r["headers"].JArr? && |r["headers"].items| == |headers.value| &&
         forall i :: 0 <= i < |headers.value| ==> r["headers"].items[i] == JObj(HeaderJson(headers.value[i]))))
    ensures var r := IntendedHttpPreferences(httpMethod, url, headers, body, n, unit);
      var today := HttpPreferences(httpMethod, url, body, n, unit);
      forall k :: k != "headers" ==> (k in r <==> k in today) && (k in today ==> r[k] == today[k])
  {
  }

  /**
   * As written, `typeHttp` converts the headers and then drops them: whatever list is given, the
   * stored preferences have no `headers` member, while the intended ones do.
   */
  lemma HttpHeadersDropped(
    httpMethod: Option<string>, url: Option<string>, headers: seq<HttpHeader>,
    body: Option<string>, n: int, unit: Option<G.TimeUnit>)
    ensures "headers" !in HttpPreferences(httpMethod, url, body, n, unit)
    ensures "headers" in IntendedHttpPreferences(httpMethod, url, Some(headers), body, n, unit)
    ensures HttpPreferences(httpMethod, url, body, n, unit) != IntendedHttpPreferences(httpMethod, url, Some(headers), body, n, unit)
  {
  }

  /** The preferences of `typeDuration(color)`. */
  function DurationPreferences(color: Option<string>): (r: Object)
    ensures r.Keys == if color.Some? then {"default_color"} else {}
    ensures color.Some? ==> r["default_color"] == JStr(color.value)
  {
    JsonData.Put(map[], "default_color", TextMember(color))
  }

  /** What `send()` hands to `Channel`: the first result of the client's answer. */
  function ChannelResult(response: Result<ApiResponse, Error>): (r: Result<Option<Object>, Error>)
    ensures response.Failure? ==> r == Failure(response.error)
    ensures response.Success? ==> r == FirstResult(response.value.body)
  {
    match response
    case Failure(e) => Failure(e)
    case Success(answer) => FirstResult(answer.body)
  }

  class CreateChannelRequest {
    const request: ApiRequest

    ghost predicate Valid()
      reads this, request, request.params
    {
      request.Valid() && request.verb == Post(JsonContent)
    }

    constructor (client: NetToolKitClient)
      ensures Valid() && fresh(request) && fresh(request.params) && request.client == client
      ensures request.params.values == map[]
    {
      request := new ApiRequest(client, Post(JsonContent));
    }

    /** `name(s)`. */
    method SetName(name: Option<string>)
      requires Valid()
      modifies request.params
      ensures Valid()
      ensures request.params.values == old(request.params.values)["name" := TextValue(name)]
    {
      request.params.Put("name", TextValue(name));
    }

    /** `displayName(s)`. */
    method SetDisplayName(displayName: Option<string>)
      requires Valid()
      modifies request.params
      ensures Valid()
      ensures request.params.values == old(request.params.values)["display_name" := TextValue(displayName)]
    {
      request.params.Put("display_name", TextValue(displayName));
    }

    /** `typeSimple()`: only the channel type; earlier preferences stay. */
    method TypeSimple()
      requires Valid()
      modifies request.params
      ensures Valid()
      ensures request.params.values == old(request.params.values)["channel_type" := VStr(Name(SIMPLE))]
    {
      request.params.Put("channel_type", VStr(Name(SIMPLE)));
    }

    /** `typeSsl(url)`. */
    method TypeSsl(url: Option<string>)
      requires Valid()
      modifies request.params
      ensures Valid()
      ensures request.params.values ==
        old(request.params.values)["channel_type" := VStr(Name(SSL))]["preferences" := VObject(SslPreferences(url))]
    {
      request.params.Put("channel_type", VStr(Name(SSL)));
      var preferences: Object := map[];
      preferences := JsonData.Put(preferences, "url", TextMember(url));
      request.params.Put("preferences", VObject(preferences));
    }

    /** `typePing(host, n, unit)`. */
    method TypePing(host: Option<string>, n: int, unit: Option<G.TimeUnit>)
      requires Valid()
      modifies request.params
      ensures Valid()
      ensures request.params.values ==
        old(request.params.values)["channel_type" := VStr(Name(PING))]["preferences" := VObject(PingPreferences(host, n, unit))]
    {
      request.params.Put("channel_type", VStr(Name(PING)));
      var preferences: Object := map[];
      preferences := JsonData.Put(preferences, "domain", TextMember(host));
      preferences := JsonData.Put(preferences, "time", Some(JNum(n)));
      preferences := JsonData.Put(preferences, "time_unit", UnitMember(unit));
      request.params.Put("preferences", VObject(preferences));
    }

    /**
     * `typeHttp(method, url, headers, body, n, unit)`. The headers are converted one by one and
     * then dropped; a null header among them throws a `NullPointerException`, reported as a
     * `ParsingException` about the list, with the channel type already stored and the
     * preferences as they were. `headersText` is the list's `String.valueOf`.
     */
    method TypeHttp(
      httpMethod: Option<string>, url: Option<string>, headers: Option<seq<Option<HttpHeader>>>, headersText: string,
      body: Option<string>, n: int, unit: Option<G.TimeUnit>)
      returns (r: Result<(), Error>)
      requires Valid()
      modifies request.params
      ensures Valid()
      ensures r.Failure? <==> headers.Some? && None in headers.value
      ensures r.Failure? ==>
        r.error == Parsing(FromCause(NullFault), headersText) &&
        request.params.values == old(request.params.values)["channel_type" := VStr(Name(HTTP))]
      ensures r.Success? ==>
        request.params.values ==
        old(request.params.values)["channel_type" := VStr(Name(HTTP))]["preferences" := VObject(HttpPreferences(httpMethod, url, body, n, unit))]
    {
      request.params.Put("channel_type", VStr(Name(HTTP)));
      var preferences: Object := map[];
      preferences := JsonData.Put(preferences, "http_method", TextMember(httpMethod));
      preferences := JsonData.Put(preferences, "url", TextMember(url));
      if headers.Some? {
        var converted: seq<Json> := [];
        var i := 0;
        while i < |headers.value|
          invariant 0 <= i <= |headers.value|
          invariant None !in headers.value[..i]
        {
          var header := headers.value[i];
          if header.None? {
            return Failure(Parsing(FromCause(NullFault), headersText));
          }
          converted := converted + [JObj(HeaderJson(header.value))];
          assert headers.value[..i + 1] == headers.value[..i] + [header];
          i := i + 1;
        }
        assert headers.value[..i] == headers.value;
      }
      preferences := JsonData.Put(preferences, "http_body", TextMember(body));
      preferences := JsonData.Put(preferences, "time", Some(JNum(n)));
      preferences := JsonData.Put(preferences, "time_unit", UnitMember(unit));
      request.params.Put("preferences", VObject(preferences));
      r := Success(());
    }

    /** `typeDuration(color)`. */
    method TypeDuration(color: Option<string>)
      requires Valid()
      modifies request.params
      ensures Valid()
      ensures request.params.values ==
        old(request.params.values)["channel_type" := VStr(Name(DURATION))]["preferences" := VObject(DurationPreferences(color))]
    {
      request.params.Put("channel_type", VStr(Name(DURATION)));
      var preferences: Object := map[];
      preferences := JsonData.Put(preferences, "default_color", TextMember(color));
      request.params.Put("preferences", VObject(preferences));
    }

    /** `send()`: a JSON POST to the channels path; the first result is what the channel is read from. */
    method Send(transport: HttpRequest -> Option<string>, parse: string -> Option<Json>) returns (r: Result<Option<Object>, Error>)
      requires Valid()
      ensures r == ChannelResult(Exchange(transport, parse, request.Spec(ChannelsPath)))
    {
      var response := request.Send(transport, parse, ChannelsPath);
      if response.Failure? {
        return Failure(response.error);
      }
      r := FirstResult(response.value.body);
    }
  }

  /**
   * The JSON body after `typeSsl(url)` then `typeSimple()`: the type is now SIMPLE, and the SSL
   * preferences are still sent.
   */
  lemma SimpleKeepsPreferences(values: map<string, Value>, url: Option<string>)
    ensures JsonOf(values["channel_type" := VStr(Name(SSL))]["preferences" := VObject(SslPreferences(url))]["channel_type" := VStr(Name(SIMPLE))])
      == JsonOf(values)["channel_type" := JStr("SIMPLE")]["preferences" := JObj(SslPreferences(url))]
  {
    var m1 := values["channel_type" := VStr(Name(SSL))];
    var m2 := m1["preferences" := VObject(SslPreferences(url))];
    JsonOfPut(values, "channel_type", VStr(Name(SSL)));
    JsonOfPut(m1, "preferences", VObject(SslPreferences(url)));
    JsonOfPut(m2, "channel_type", VStr(Name(SIMPLE)));
    ReplaceFirst(JsonOf(values), "channel_type", "preferences", JStr("SSL"), JObj(SslPreferences(url)), JStr("SIMPLE"));
  }

  /** Two typed setters in a row: the body shows only the second one's type and preferences. */
  lemma SecondTypeWins(values: map<string, Value>, t1: string, p1: Object, t2: string, p2: Object)
    ensures JsonOf(values["channel_type" := VStr(t1)]["preferences" := VObject(p1)]["channel_type" := VStr(t2)]["preferences" := VObject(p2)])
      == JsonOf(values)["channel_type" := JStr(t2)]["preferences" := JObj(p2)]
  {
    var m1 := values["channel_type" := VStr(t1)];
    var m2 := m1["preferences" := VObject(p1)];
    var m3 := m2["channel_type" := VStr(t2)];
    JsonOfPut(values, "channel_type", VStr(t1));
    JsonOfPut(m1, "preferences", VObject(p1));
    JsonOfPut(m2, "channel_type", VStr(t2));
    JsonOfPut(m3, "preferences", VObject(p2));
    ReplaceFirst(JsonOf(values), "channel_type", "preferences", JStr(t1), JObj(p1), JStr(t2));
  }

  /** Writing `a`, then `b`, then `a` again leaves what writing the last `a` and then `b` leaves. */
  lemma ReplaceFirst(o: Object, a: string, b: string, x: Json, y: Json, z: Json)
    requires a != b
    ensures o[a := x][b := y][a := z] == o[a := z][b := y]
  {
  }

  /** The stored type is always a name `ChannelType.fromString` reads back as that type. */
  lemma StoredTypeReadsBack(t: ChannelType)
    ensures FromString(Some(ValueText(VStr(Name(t))))) == Success(t)
  {
    FromStringOfName(t);
  }
}
