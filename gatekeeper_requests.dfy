/**
 * The Gatekeeper requests that name a resource in their path: adding a visitor to a visitor
 * group (JSON POST), removing one (DELETE, parameters in the query string), and reporting a
 * CAPTCHA attempt for a visit (JSON PUT). The identifier lives in a field of the request, never
 * in its parameter bag.
 */
module GatekeeperRequests {
  import opened Wrappers
  import opened JsonData
  import opened Uuids
  import opened UrlEncoding
  import opened ParameterBag
  import opened Errors
  import opened Http
  import opened ApiClient
  import opened Responses
  import opened Requests

  /** `java.util.concurrent.TimeUnit`. */
  datatype TimeUnit = Nanoseconds | Microseconds | Milliseconds | Seconds | Minutes | Hours | Days

  /** `name()`. */
  function UnitName(u: TimeUnit): string
  {
    match u
    case Nanoseconds => "NANOSECONDS"
    case Microseconds => "MICROSECONDS"
    case Milliseconds => "MILLISECONDS"
    case Seconds => "SECONDS"
    case Minutes => "MINUTES"
    case Hours => "HOURS"
    case Days => "DAYS"
  }

  /** A CAPTCHA outcome as the report sends it. */
  datatype CaptchaStatus = Solved | Failed

  /** `String.valueOf(status)`: the constant's name, or `"null"`. */
  function StatusText(s: Option<CaptchaStatus>): (r: string)
  {
    match s
    case None => "null"
    case Some(Solved) => "SOLVED"
    case Some(Failed) => "FAILED"
  }

  /**
   * `UUID.fromString(text)`: a null text throws a `NullPointerException`, a text that is not a
   * UUID an `IllegalArgumentException`.
   */
  function UuidFromText(s: Option<string>): (r: Result<Uuid, Error>)
    ensures s.None? ==> r == Failure(Thrown(NullFault))
    ensures s.Some? ==> (r.Success? <==> IsUuidText(s.value))
    ensures s.Some? && !IsUuidText(s.value) ==> r == Failure(Thrown(UuidFault))
    ensures r.Success? ==> r.value == Parse(s.value).value
  {
    match s
    case None => Failure(Thrown(NullFault))
    case Some(text) =>
      match Parse(text)
      case None => Failure(Thrown(UuidFault))
      case Some(id) => Success(id)
  }

  const VisitorGroupsPrefix := "/v1/gatekeeper/visitor-groups/"
  const VisitorsSuffix := "/visitors"
  const VisitsPrefix := "/v1/gatekeeper/visits/"
  const CaptchaSuffix := "/captcha"
  const MissingGroupId := "Missing visitor group ID"

  /** `getPath()` of both visitor requests: the group id, or `null`, between fixed parts. */
  function VisitorsPath(id: Option<Uuid>): (r: string)
  {
    VisitorGroupsPrefix + NullableText(id) + VisitorsSuffix
  }

  /** `getPath()` of the CAPTCHA report. */
  function CaptchaPath(id: Option<Uuid>): (r: string)
  {
    VisitsPrefix + NullableText(id) + CaptchaSuffix
  }

  /** A text between a fixed prefix and suffix can be read back from the whole. */
  lemma MiddleDetermined(p: string, x: string, y: string, q: string)
    requires p + x + q == p + y + q
    ensures x == y
  {
    var w := p + x + q;
    assert |x| == |y|;
    assert x == w[|p|..|p| + |x|];
    assert y == (p + y + q)[|p|..|p| + |y|];
  }

  /** Different groups are sent to different paths, and an unset group to `…/null/visitors`. */
  lemma VisitorsPathIdentifies(a: Option<Uuid>, b: Option<Uuid>)
    requires a.Some? && b.Some?
    ensures VisitorsPath(a) == VisitorsPath(b) <==> a == b
    ensures VisitorsPath(None) == "/v1/gatekeeper/visitor-groups/null/visitors"
  {
    if VisitorsPath(a) == VisitorsPath(b) {
      MiddleDetermined(VisitorGroupsPrefix, a.value.text, b.value.text, VisitorsSuffix);
    }
  }

  /** Different visits are reported on different paths; an unset visit goes to `…/null/captcha`. */
  lemma CaptchaPathIdentifies(a: Option<Uuid>, b: Option<Uuid>)
    requires a.Some? && b.Some?
    ensures CaptchaPath(a) == CaptchaPath(b) <==> a == b
    ensures CaptchaPath(None) == "/v1/gatekeeper/visits/null/captcha"
  {
    if CaptchaPath(a) == CaptchaPath(b) {
      MiddleDetermined(VisitsPrefix, a.value.text, b.value.text, CaptchaSuffix);
    }
  }

  /** The `send()` guard of both visitor requests: no group id, no request. */
  function Guarded(id: Option<Uuid>, sent: Result<ApiResponse, Error>): (r: Result<ApiResponse, Error>)
  {
    if id.None? then Failure(BadArgument(MissingGroupId, "null")) else sent
  }

  /** What the client can throw back never looks like the guard's own refusal. */
  lemma ExchangeIsNeverBadArgument(transport: HttpRequest -> Option<string>, parse: string -> Option<Json>, req: ApiRequest, path: string)
    requires req.Valid()
    ensures Exchange(transport, parse, req.Spec(path)).Failure? ==> !Exchange(transport, parse, req.Spec(path)).error.BadArgument?
  {
  }

  /**
   * A guarded send fails with a `BadArgumentException` exactly when the group id is missing,
   * whatever the client answers, and its message names the missing argument.
   */
  lemma GuardedIff(id: Option<Uuid>, sent: Result<ApiResponse, Error>)
    requires sent.Failure? ==> !sent.error.BadArgument?
    ensures (Guarded(id, sent).Failure? && Guarded(id, sent).error.BadArgument?) <==> id.None?
    ensures id.None? ==> Message(Guarded(id, sent).error) == Some("Missing visitor group ID (argument = null)")
  {
    if id.None? {
      var e := Guarded(id, sent).error;
      assert e == BadArgument(MissingGroupId, "null");
      assert Message(e) == Some(MissingGroupId + " (argument = " + "null" + ")");
      assert MissingGroupId + " (argument = " + "null" + ")" == "Missing visitor group ID (argument = null)";
    }
  }

  class AddVisitorRequest {
    const request: ApiRequest
    var visitorGroupId: Option<Uuid>

    ghost predicate Valid()
      reads this, request, request.params
    {
      request.Valid() && request.verb == Post(JsonContent)
    }

    constructor (client: NetToolKitClient)
      ensures Valid() && visitorGroupId.None?
      ensures fresh(request) && fresh(request.params) && request.client == client
      ensures request.params.values == map[]
    {
      request := new ApiRequest(client, Post(JsonContent));
      visitorGroupId := None;
    }

    function Path(): (r: string)
      reads this
    {
      VisitorsPath(visitorGroupId)
    }

    /** `visitorGroupId(UUID)`: the id is kept for the path; the bag is untouched. */
    method SetVisitorGroupId(id: Option<Uuid>)
      requires Valid()
      modifies this
      ensures Valid() && request.params.values == old(request.params.values)
      ensures visitorGroupId == id
    {
      visitorGroupId := id;
    }

    /** `visitorGroupId(String)`: on text that is not a UUID it throws and changes nothing. */
    method SetVisitorGroupIdText(text: Option<string>) returns (r: Result<(), Error>)
      requires Valid()
      modifies this
      ensures Valid() && request.params.values == old(request.params.values)
      ensures UuidFromText(text).Success? ==> r.Success? && visitorGroupId == Some(UuidFromText(text).value)
      ensures UuidFromText(text).Failure? ==> r == Failure(UuidFromText(text).error) && visitorGroupId == old(visitorGroupId)
    {
      var id := UuidFromText(text);
      if id.Failure? {
        return Failure(id.error);
      }
      visitorGroupId := Some(id.value);
      r := Success(());
    }

    /** `visitor(String)`. */
    method SetVisitor(visitor: Option<string>)
      requires Valid()
      modifies request.params
      ensures Valid()
      ensures request.params.values == old(request.params.values)["visitor" := TextValue(visitor)]
      ensures request.params.order == OrderAfterPut(old(request.params.order), old(request.params.values), "visitor")
    {
      request.params.Put("visitor", TextValue(visitor));
    }

    /**
     * `expiration(n, unit)`: the number is stored first, so a null unit throws a
     * `NullPointerException` with the number already in the bag.
     */
    method Expiration(n: int, unit: Option<TimeUnit>) returns (r: Result<(), Error>)
      requires Valid()
      modifies request.params
      ensures Valid()
      ensures unit.None? ==>
        r == Failure(Thrown(NullFault)) && request.params.values == old(request.params.values)["expiration_time_num" := VInt(n)]
      ensures unit.Some? ==>
        r.Success? && request.params.values == old(request.params.values)["expiration_time_num" := VInt(n)]["expiration_time_unit" := VStr(UnitName(unit.value))]
    {
      request.params.Put("expiration_time_num", VInt(n));
      if unit.None? {
        return Failure(Thrown(NullFault));
      }
      request.params.Put("expiration_time_unit", VStr(UnitName(unit.value)));
      r := Success(());
    }

    /** `send()`: refuse a request with no group id, otherwise hand it to the client. */
    method Send(transport: HttpRequest -> Option<string>, parse: string -> Option<Json>) returns (r: Result<ApiResponse, Error>)
      requires Valid()
      ensures r == Guarded(visitorGroupId, Exchange(transport, parse, request.Spec(Path())))
    {
      if visitorGroupId.None? {
        return Failure(BadArgument(MissingGroupId, NullableText(visitorGroupId)));
      }
      r := request.Send(transport, parse, Path());
    }
  }

  class RemoveVisitorRequest {
    const request: ApiRequest
    var visitorGroupId: Option<Uuid>

    ghost predicate Valid()
      reads this, request, request.params
    {
      request.Valid() && request.verb == Delete
    }

    constructor (client: NetToolKitClient)
      ensures Valid() && visitorGroupId.None?
      ensures fresh(request) && fresh(request.params) && request.client == client
      ensures request.params.values == map[]
    {
      request := new ApiRequest(client, Delete);
      visitorGroupId := None;
    }

    function Path(): (r: string)
      reads this
    {
      VisitorsPath(visitorGroupId)
    }

    /** `visitorGroupId(UUID)`. */
    method SetVisitorGroupId(id: Option<Uuid>)
      requires Valid()
      modifies this
      ensures Valid() && request.params.values == old(request.params.values)
      ensures visitorGroupId == id
    {
      visitorGroupId := id;
    }

    /** `visitorGroupId(String)`. */
    method SetVisitorGroupIdText(text: Option<string>) returns (r: Result<(), Error>)
      requires Valid()
      modifies this
      ensures Valid() && request.params.values == old(request.params.values)
      ensures UuidFromText(text).Success? ==> r.Success? && visitorGroupId == Some(UuidFromText(text).value)
      ensures UuidFromText(text).Failure? ==> r == Failure(UuidFromText(text).error) && visitorGroupId == old(visitorGroupId)
    {
      var id := UuidFromText(text);
      if id.Failure? {
        return Failure(id.error);
      }
      visitorGroupId := Some(id.value);
      r := Success(());
    }

    /** `visitor(String)`: as a DELETE, the value travels in the query string. */
    method SetVisitor(visitor: Option<string>)
      requires Valid()
      modifies request.params
      ensures Valid()
      ensures request.params.values == old(request.params.values)["visitor" := TextValue(visitor)]
      ensures request.params.order == OrderAfterPut(old(request.params.order), old(request.params.values), "visitor")
    {
      request.params.Put("visitor", TextValue(visitor));
    }

    /** `send()`: the same guard as adding a visitor. */
    method Send(transport: HttpRequest -> Option<string>, parse: string -> Option<Json>) returns (r: Result<ApiResponse, Error>)
      requires Valid()
      ensures r == Guarded(visitorGroupId, Exchange(transport, parse, request.Spec(Path())))
    {
      if visitorGroupId.None? {
        return Failure(BadArgument(MissingGroupId, NullableText(visitorGroupId)));
      }
      r := request.Send(transport, parse, Path());
    }
  }

  class ReportCaptchaAttemptRequest {
    const request: ApiRequest
    var visitId: Option<Uuid>

    ghost predicate Valid()
      reads this, request, request.params
    {
      request.Valid() && request.verb == Put(JsonContent)
    }

    constructor (client: NetToolKitClient)
      ensures Valid() && visitId.None?
      ensures fresh(request) && fresh(request.params) && request.client == client
      ensures request.params.values == map[]
    {
      request := new ApiRequest(client, Put(JsonContent));
      visitId := None;
    }

    function Path(): (r: string)
      reads this
    {
      CaptchaPath(visitId)
    }

    /** `visitId(UUID)`. */
    method SetVisitId(id: Option<Uuid>)
      requires Valid()
      modifies this
      ensures Valid() && request.params.values == old(request.params.values)
      ensures visitId == id
    {
      visitId := id;
    }

    /** `visitId(String)`. */
    method SetVisitIdText(text: Option<string>) returns (r: Result<(), Error>)
      requires Valid()
      modifies this
      ensures Valid() && request.params.values == old(request.params.values)
      ensures UuidFromText(text).Success? ==> r.Success? && visitId == Some(UuidFromText(text).value)
      ensures UuidFromText(text).Failure? ==> r == Failure(UuidFromText(text).error) && visitId == old(visitId)
    {
      var id := UuidFromText(text);
      if id.Failure? {
        return Failure(id.error);
      }
      visitId := Some(id.value);
      r := Success(());
    }

    /** `status(status)`: the status's text, `"null"` included. */
    method SetStatus(status: Option<CaptchaStatus>)
      requires Valid()
      modifies request.params
      ensures Valid()
      ensures request.params.values == old(request.params.values)["status" := VStr(StatusText(status))]
      ensures request.params.order == OrderAfterPut(old(request.params.order), old(request.params.values), "status")
    {
      request.params.Put("status", VStr(StatusText(status)));
    }

    /** `send()`: no guard; an unset visit id is sent as `null` in the path. */
    method Send(transport: HttpRequest -> Option<string>, parse: string -> Option<Json>) returns (r: Result<ApiResponse, Error>)
      requires Valid()
      ensures r == Exchange(transport, parse, request.Spec(Path()))
    {
      r := request.Send(transport, parse, Path());
    }
  }

  /**
   * The JSON body of an add-visitor request after `visitor(s)` and `expiration(n, unit)`: the
   * three members and nothing else; in particular the group id is not in it. A null visitor
   * disappears from the body.
   */
  lemma AddVisitorBody(p: Parameters, visitor: Option<string>, n: int, unit: TimeUnit)
    requires p.Valid()
    requires p.values == map["visitor" := TextValue(visitor), "expiration_time_num" := VInt(n), "expiration_time_unit" := VStr(UnitName(unit))]
    ensures visitor.Some? ==> p.ToJson() == map["visitor" := JStr(visitor.value), "expiration_time_num" := JNum(n), "expiration_time_unit" := JStr(UnitName(unit))]
    ensures visitor.None? ==> p.ToJson() == map["expiration_time_num" := JNum(n), "expiration_time_unit" := JStr(UnitName(unit))]
  {
    var m0: map<string, Value> := map[];
    var m1 := m0["visitor" := TextValue(visitor)];
    var m2 := m1["expiration_time_num" := VInt(n)];
    JsonOfPut(m0, "visitor", TextValue(visitor));
    JsonOfPut(m1, "expiration_time_num", VInt(n));
    JsonOfPut(m2, "expiration_time_unit", VStr(UnitName(unit)));
    assert JsonOf(m0) == map[];
  }

  /**
   * The query string of a remove-visitor request (a DELETE, so `RequestFrom` appends it to the
   * URL and sends no body): the single pair `visitor=…`, where a null visitor is the text `null`.
   */
  lemma RemoveVisitorQuery(p: Parameters, visitor: Option<string>)
    requires p.Valid() && p.values == map["visitor" := TextValue(visitor)]
    ensures Serialized(Delete, p) == Encode("visitor") + "=" + Encode(ValueText(TextValue(visitor)))
    ensures visitor.None? ==> ValueText(TextValue(visitor)) == "null"
  {
    SingleEntryForm(p.values, p.order, "visitor", TextValue(visitor));
  }
}
