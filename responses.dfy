/**
 * The two response envelopes. Version 1 bodies carry a numeric `code`, which 2000 and above
 * marks as an error, and a `results` array. Version 2 bodies report failures in an `errors`
 * array. Reading JSON text is a parameter: `parse` gives the value a text denotes, or `None`
 * where the JSON library would throw.
 */
module Responses {
  import opened Wrappers
  import opened JavaText
  import opened JsonData
  import opened Sequences
  import opened Errors

  /** A null or empty body. */
  predicate IsEmptyBody(text: Option<string>)
  {
    text.None? || |text.value| < 1
  }

  /** `new JSONObject(text)`: the parsed value when it is an object; anything else throws. */
  function ParseObject(parse: string -> Option<Json>, text: string): (r: Option<Object>)
    ensures r.Some? <==> parse(text).Some? && parse(text).value.JObj?
    ensures r.Some? ==> r.value == parse(text).value.fields
  {
    match parse(text)
    case Some(JObj(fields)) => Some(fields)
    case _ => None
  }

  /** The `ParsingException` that wraps a `JSONException` thrown while reading `text`. */
  function JsonFailure(text: string): Error
  {
    Parsing(FromCause(JsonFault), text)
  }

  // ---------------------------------------------------------------------------
  // Version 1

  /**
   * `ApiResponse.parseResponse`, of which `NetToolKitClient.parseResponse` is a copy. A body that
   * parses to an object whose `code` is an integral number below 2000 is returned as it is; one whose
   * code is 2000 or above becomes an `ApiException`, never a `ParsingException`; everything else is
   * a `ParsingException`.
   */
  function ParseResponse(parse: string -> Option<Json>, text: Option<string>): (r: Result<Object, Error>)
    ensures IsEmptyBody(text) ==> r == Failure(Parsing(Says("Got empty response"), StringOf(text)))
    ensures r.Success? <==>
      !IsEmptyBody(text) && ParseObject(parse, text.value).Some?
      && "code" in ParseObject(parse, text.value).value
      && ParseObject(parse, text.value).value["code"].JNum?
      && Int32Of(ParseObject(parse, text.value).value["code"].n) < 2000
    ensures r.Success? ==> r.value == ParseObject(parse, text.value).value
    ensures r.Failure? && r.error.Api? <==>
      !IsEmptyBody(text) && ParseObject(parse, text.value).Some?
      && GetInt(ParseObject(parse, text.value).value, "code").Some?
      && GetInt(ParseObject(parse, text.value).value, "code").value >= 2000
    ensures r.Failure? && r.error.Api? ==>
      var o := ParseObject(parse, text.value).value;
      r.error == Api(GetInt(o, "code").value, OptStr(o, "message"))
    ensures r.Failure? ==> r.error.Api? || r.error.Parsing?
    ensures !IsEmptyBody(text) && r.Failure? && !r.error.Api? ==> r.error == JsonFailure(text.value)
  {
    if IsEmptyBody(text) then Failure(Parsing(Says("Got empty response"), StringOf(text)))
    else
      match ParseObject(parse, text.value)
      case None => Failure(JsonFailure(text.value))
      case Some(o) =>
        match GetInt(o, "code")
        case None => Failure(JsonFailure(text.value))
        case Some(code) =>
          if code >= 2000 then Failure(Api(code, OptStr(o, "message")))
          else Success(o)
  }

  /** Every code below 2000 is success, including those below 1000 and negative ones. */
  lemma ParseResponseLowCodes(parse: string -> Option<Json>, text: string, o: Object, code: int)
    requires |text| > 0 && parse(text) == Some(JObj(o))
    requires "code" in o && o["code"] == JNum(code) && -0x8000_0000 <= code < 2000
    ensures ParseResponse(parse, Some(text)) == Success(o)
  {
  }

  /** A code is read as a Java `int`: 2^32 + 5 wraps to 5 and is taken as success. */
  lemma ParseResponseWrapsCode(parse: string -> Option<Json>, text: string, o: Object)
    requires |text| > 0 && parse(text) == Some(JObj(o))
    requires "code" in o && o["code"] == JNum(0x1_0000_0005)
    ensures ParseResponse(parse, Some(text)) == Success(o)
  {
  }

  /** An `ApiResponse`: the body as received and the object parsed from it. */
  datatype ApiResponse = ApiResponse(raw: string, body: Object)

  /** The constructor: it keeps the raw body and parses it, or throws what `parseResponse` throws. */
  function NewApiResponse(parse: string -> Option<Json>, text: Option<string>): (r: Result<ApiResponse, Error>)
    ensures r.Success? <==> ParseResponse(parse, text).Success?
    ensures r.Success? ==> text.Some? && r.value.raw == text.value && r.value.body == ParseResponse(parse, text).value
    ensures r.Failure? ==> r.error == ParseResponse(parse, text).error
  {
    match ParseResponse(parse, text)
    case Failure(e) => Failure(e)
    case Success(o) => Success(ApiResponse(text.value, o))
  }

  /** `getResults`: the `results` member when it is an array. */
  function Results(body: Object): (r: Result<seq<Json>, Error>)
    ensures r.Success? <==> "results" in body && body["results"].JArr?
    ensures r.Success? ==> r.value == body["results"].items
    ensures r.Failure? ==> r.error == Parsing(Says("Missing 'results' from response"), Text(JObj(body)))
  {
    match OptArray(body, "results")
    case None => Failure(Parsing(Says("Missing 'results' from response"), Text(JObj(body))))
    case Some(items) => Success(items)
  }

  /** `getFirstResult`: element 0 of a non-empty `results`, which is null unless it is an object. */
  function FirstResult(body: Object): (r: Result<Option<Object>, Error>)
    ensures r.Success? <==> Results(body).Success? && |Results(body).value| >= 1
    ensures r.Success? ==> r.value == ItemObject(Results(body).value, 0)
    ensures Results(body).Success? && Results(body).value == [] ==>
      r == Failure(Parsing(Says("No results"), Text(JArr([]))))
  {
    match Results(body)
    case Failure(e) => Failure(e)
    case Success(items) =>
      if |items| < 1 then Failure(Parsing(Says("No results"), Text(JArr(items))))
      else Success(ItemObject(items, 0))
  }

  /** `NetToolKitClient.getResults(text)`: parse, then read `results`. */
  function ClientResults(parse: string -> Option<Json>, text: Option<string>): (r: Result<seq<Json>, Error>)
  {
    match ParseResponse(parse, text)
    case Failure(e) => Failure(e)
    case Success(o) => Results(o)
  }

  /** `NetToolKitClient.getFirstResult(text)`. */
  function ClientFirstResult(parse: string -> Option<Json>, text: Option<string>): (r: Result<Option<Object>, Error>)
  {
    match ClientResults(parse, text)
    case Failure(e) => Failure(e)
    case Success(items) =>
      if |items| < 1 then Failure(Parsing(Says("No results"), Text(JArr(items))))
      else Success(ItemObject(items, 0))
  }

  /** The client's legacy helpers behave exactly as building an `ApiResponse` and asking it. */
  lemma ClientHelpersAgree(parse: string -> Option<Json>, text: Option<string>)
    ensures ClientResults(parse, text) ==
      (match NewApiResponse(parse, text) case Failure(e) => Failure(e) case Success(resp) => Results(resp.body))
    ensures ClientFirstResult(parse, text) ==
      (match NewApiResponse(parse, text) case Failure(e) => Failure(e) case Success(resp) => FirstResult(resp.body))
  {
  }

  // ---------------------------------------------------------------------------
  // Version 2

  /**
   * `ApiV2Response.parseBody`: a non-empty `errors` array becomes an `ApiV2Exception` with one
   * error per entry, unless an entry cannot be read, which is a `ParsingException`; otherwise the
   * parsed object is returned, whatever else it holds.
   */
  function ParseBody(parse: string -> Option<Json>, text: Option<string>): (r: Result<Object, Error>)
    ensures IsEmptyBody(text) ==> r == Failure(Parsing(Says("Got empty response"), StringOf(text)))
    ensures !IsEmptyBody(text) && ParseObject(parse, text.value).None? ==> r == Failure(JsonFailure(text.value))
    ensures r.Success? ==> !IsEmptyBody(text) && ParseObject(parse, text.value) == Some(r.value)
    ensures r.Failure? ==> r.error.ApiV2? || r.error.Parsing?
  {
    if IsEmptyBody(text) then Failure(Parsing(Says("Got empty response"), StringOf(text)))
    else
      match ParseObject(parse, text.value)
      case None => Failure(JsonFailure(text.value))
      case Some(o) =>
        var errorList := OptArray(o, "errors");
        if errorList.Some? && |errorList.value| > 0 then
          match MapAll(errorList.value, ApiErrorFromJson)
          case Failure(_) => Failure(JsonFailure(text.value))
          case Success(errors) => Failure(ApiV2(errors))
        else Success(o)
  }

  /** An `errors` member that is absent, empty or not an array lets the object through unchanged. */
  lemma ParseBodyNoErrors(parse: string -> Option<Json>, text: string, o: Object)
    requires |text| > 0 && parse(text) == Some(JObj(o))
    requires !("errors" in o && o["errors"].JArr? && |o["errors"].items| > 0)
    ensures ParseBody(parse, Some(text)) == Success(o)
  {
  }

  /**
   * A non-empty `errors` array gives an `ApiV2Exception` exactly when every entry is an object with
   * an integral code, and then it holds one error per entry, in array order, with the entry's code
   * and its `message` (empty when absent).
   */
  lemma ParseBodyErrors(parse: string -> Option<Json>, text: string, o: Object)
    requires |text| > 0 && parse(text) == Some(JObj(o))
    requires "errors" in o && o["errors"].JArr? && |o["errors"].items| > 0
    ensures var items := o["errors"].items;
      var r := ParseBody(parse, Some(text));
      (r.Failure? && r.error.ApiV2? <==>
        forall i :: 0 <= i < |items| ==> items[i].JObj? && "code" in items[i].fields && items[i].fields["code"].JNum?)
      && (r.Failure? && r.error.ApiV2? ==>
            (|r.error.errors| == |items|
             && forall i :: 0 <= i < |items| ==>
                  r.error.errors[i].code == Int32Of(items[i].fields["code"].n)
                  && r.error.errors[i].message == OptString(items[i].fields, "message", Some("")).value))
      && (!(r.Failure? && r.error.ApiV2?) ==> r == Failure(JsonFailure(text)))
  {
    ApiErrorListSpec(o["errors"].items);
  }

  /**
   * `parseBody` as written: constructing the `ApiV2Exception` builds its message, which throws a
   * `NullPointerException` for an unlisted code; the `catch` only handles `JSONException`.
   */
  function ParseBodyAsWritten(parse: string -> Option<Json>, text: Option<string>): (r: Result<Object, Error>)
  {
    match ParseBody(parse, text)
    case Failure(ApiV2(errors)) =>
      (match V2MessageAsWritten(errors)
       case Failure(e) => Failure(e)
       case Success(_) => Failure(ApiV2(errors)))
    case other => other
  }

  /** As written, `parseBody` differs from the intended one exactly when an error code is outside the table. */
  lemma ParseBodyAsWrittenDiffers(parse: string -> Option<Json>, text: Option<string>)
    ensures ParseBodyAsWritten(parse, text) != ParseBody(parse, text) <==>
      var r := ParseBody(parse, text);
      r.Failure? && r.error.ApiV2? && exists i :: 0 <= i < |r.error.errors| && StatusCodes.FromInt(r.error.errors[i].code).None?
    ensures ParseBodyAsWritten(parse, text) != ParseBody(parse, text) ==> ParseBodyAsWritten(parse, text) == Failure(Thrown(NullFault))
  {
    var r := ParseBody(parse, text);
    if r.Failure? && r.error.ApiV2? {
      V2MessageAsWrittenThrowsIff(r.error.errors);
    }
  }

  /** The input that shows it: a body reporting the unlisted code 3006. */
  lemma ParseBodyAsWrittenThrows()
    ensures var body := JObj(map["errors" := JArr([JObj(map["code" := JNum(3006)])])]);
      var parse := (t: string) => Some(body);
      ParseBody(parse, Some("{}")) == Failure(ApiV2([ApiError(3006, "")]))
      && ParseBodyAsWritten(parse, Some("{}")) == Failure(Thrown(NullFault))
  {
    var item := JObj(map["code" := JNum(3006)]);
    var body := JObj(map["errors" := JArr([item])]);
    var parse := (t: string) => Some(body);
    assert GetInt(item.fields, "code") == Some(3006);
    assert OptString(item.fields, "message", Some("")) == Some("");
    assert ApiErrorFromJson(item) == Success(ApiError(3006, ""));
    assert MapAll([item], ApiErrorFromJson) == Success([ApiError(3006, "")]) by {
      var f := ApiErrorFromJson;
      assert f(item) == Success(ApiError(3006, ""));
      assert MapAll([], f) == Success([]);
      MapAllSnoc([], item, f);
      assert [] + [item] == [item];
      assert [] + [ApiError(3006, "")] == [ApiError(3006, "")];
    }
    V2MessageAsWrittenThrows();
    assert V2MessageAsWritten([ApiError(3006, "")]) == Failure(Thrown(NullFault)) by {
      StatusCodes.UnlistedCodes();
      assert [ApiError(3006, "")][..0] == [];
    }
  }

  /** An `ApiV2Response`: the body as received and the object parsed from it. */
  datatype ApiV2Response = ApiV2Response(raw: string, body: Object)

  /** The constructor: `getRawResponseBody` and `getJsonBody` return what it stored. */
  function NewApiV2Response(parse: string -> Option<Json>, text: Option<string>): (r: Result<ApiV2Response, Error>)
    ensures r.Success? <==> ParseBody(parse, text).Success?
    ensures r.Success? ==> text.Some? && r.value.raw == text.value && r.value.body == ParseBody(parse, text).value
    ensures r.Failure? ==> r.error == ParseBody(parse, text).error
  {
    match ParseBody(parse, text)
    case Failure(e) => Failure(e)
    case Success(o) => Success(ApiV2Response(text.value, o))
  }
}
