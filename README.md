# NetToolKit Java SDK: a verified model of the client core

This project models the core of the NetToolKit Java SDK: the client library that builds
requests to the NetToolKit web API, sends them over HTTPS, and turns the JSON answers into
typed records or typed exceptions. The model covers:

- **The parameter bag** (`Parameters`). It is a class whose map of values the request setters
  update in place. It serializes either as `application/x-www-form-urlencoded` text (the nested
  loops over keys and values become methods with loop invariants) or as a JSON object.
- **Request building** (`BaseApiRequest`, `GetRequest`, `PostRequest`, `DeleteRequest`). This
  covers the URL with its query, the body, the headers and the timeout. The client's own
  `sendGet`/`sendPost`/`sendPut`/`sendDelete` helpers are modelled too, along with the default
  timeout, the protocol and the host.
- **Response parsing** (`ApiResponse`, `ApiV2Response`). This covers the status code cut-off at
  2000, the `results` and first-result helpers, and the version 2 `errors` array.
- **The status code table and the exceptions.** The exceptions are `ParsingException`,
  `ResponseParsingException`, `ApiException`, `ApiV2Exception` with its `ApiError` list,
  `BadArgumentException` and `ApiConnectionException`. Each is a case of one `Error` datatype
  whose messages are built as the Java constructors build them.
- **The small enums** `Provider`, `Precision` and `ChannelType`, with their lenient
  `fromString` readers.
- **`AttributeMap`**, and **`Geocode`** with `GeocodeRequest`.
- **The Gatekeeper requests.** These are `AddVisitorRequest`, `RemoveVisitorRequest`,
  `ReportCaptchaAttemptRequest`, `GetPoliciesRequest`, `GetVisitorGroupsRequest` and
  `GetPageGroupsRequest`, with the `Policy`, `Visit`, `VisitorGroup` and `PageGroup` decoders.
- **The dashboard requests.** These are `CreateChannelRequest`, `CreateMetricsRequest` and
  `CreateLogsRequest`, with the `DurationEvent`, `DurationSpan` and `Duration` decoders.

Request objects are classes whose methods change the parameter bag and the pending lists as
the Java builders do. Decoders are total functions from a JSON object to a `Result`. Every
`send()` loop that builds a list is one method (`Sequences.CollectAll`), proved equal to
`Sequences.MapAll`: one conversion per element, in order, where the first element that fails
decides the error.

Some things sit outside the code shown and become parameters:

- **The network.** Sending an `HttpRequest` is a parameter `transport: HttpRequest ->
  Option<string>`, where `None` means an I/O failure.
- **JSON text.** Parsing JSON text is a parameter `parse: string -> Option<Json>`.
- **The clock.** The current time is an `int` argument in epoch milliseconds.

The vendored JSON library (`com.nettoolkit.json`) is not part of this model. It is taken to
behave as org.json does:

- `opt*` accessors fall back to their defaults.
- `put(key, null)` removes the key.
- `new JSONObject(map)` drops null values.
- `get*` accessors refuse a member of another JSON type.
- `getInt` and `getLong` narrow to 32 and 64 bits.

Doubles are opaque values (`Float64`, carrying their decimal text).

`StatusCode.fromInt` (src/main/java/com/nettoolkit/internal/StatusCode.java:58-60) returns
`null` for an unlisted code, so the model returns `None` and `ApiException.getStatusCode` is
`None` for such codes.

## Model

| member | source | states |
|---|---|---|
| ParameterBag.KeyPairs | src/main/java/com/nettoolkit/internal/Parameters.java:70-84 | One pair per value, all under the same key, in value order, each value shown as its text. |
| ParameterBag.Parameters.constructor | src/main/java/com/nettoolkit/internal/Parameters.java:18 | A new bag holds no parameters. |
| ParameterBag.Parameters.Put | src/main/java/com/nettoolkit/internal/Parameters.java:20-54 | Every overload stores its value under the key, replacing an earlier value, and the key order follows the backing map. |
| ParameterBag.Parameters.ToWwwFormUrlencoded | src/main/java/com/nettoolkit/internal/Parameters.java:56-87 | The result is the form text of every key's pairs in the map's iteration order. |
| ParameterBag.AppendPairs | src/main/java/com/nettoolkit/internal/Parameters.java:70-84 | The inner loop appends one encoded pair per value, with `&` before each pair except the first of the whole text. |
| ParameterBag.FormTextSnoc | src/main/java/com/nettoolkit/internal/Parameters.java:71-80 | A new pair is joined to earlier ones by exactly one `&` and stands alone when it is the first. |
| ParameterBag.FormPairsForKey | src/main/java/com/nettoolkit/internal/Parameters.java:59-85 | The pairs sent for a key are exactly that key's own pairs, whatever the other keys hold. |
| ParameterBag.NullValueGivesOnePair | src/main/java/com/nettoolkit/internal/Parameters.java:62-63 | A null value is sent as exactly one pair `key=null`. |
| ParameterBag.CollectionGivesPairPerElement | src/main/java/com/nettoolkit/internal/Parameters.java:64-84 | A collection is sent as one pair per element, in element order. |
| ParameterBag.BlockEmptyIff | src/main/java/com/nettoolkit/internal/Parameters.java:62-68 | A key contributes no pair if and only if its value is an empty collection. |
| ParameterBag.FormTextEmptyIff | src/main/java/com/nettoolkit/internal/Parameters.java:56-86 | The form text is empty if and only if every value is an empty collection. |
| ParameterBag.FormPairsPermutation | src/main/java/com/nettoolkit/internal/Parameters.java:18 | Any two iteration orders of the same keys send the same multiset of pairs. |
| ParameterBag.SingleEntryForm | src/main/java/com/nettoolkit/internal/Parameters.java:56-86 | A bag with one non-collection entry sends exactly the encoded key, `=` and the encoded value. |
| ParameterBag.Parameters.ToJson | src/main/java/com/nettoolkit/internal/Parameters.java:89-91 | The JSON object has exactly the keys whose value is not null, each holding that value's JSON form. |
| ParameterBag.JsonOfPut | src/main/java/com/nettoolkit/internal/Parameters.java:20-54 | Putting null removes the key from the JSON body; putting any other value sets that key and leaves the other keys alone. |
| UrlEncoding.Utf8Decodes | src/main/java/com/nettoolkit/internal/Parameters.java:78-80 | The UTF-8 bytes written for a character decode back to that character. |
| UrlEncoding.EncodeIsEncodedText | src/main/java/com/nettoolkit/internal/Parameters.java:78-80 | Encoded text holds only unreserved characters, `+` and `%XX` escapes. |
| UrlEncoding.EncodedHasNoSeparator | src/main/java/com/nettoolkit/internal/Parameters.java:78-80 | An encoded key or value contains neither `&` nor `=`. |
| UrlEncoding.DecodeEncode | src/main/java/com/nettoolkit/internal/Parameters.java:78-80 | Decoding an encoded text gives back the original text. |
| UrlEncoding.EncodeInjective | src/main/java/com/nettoolkit/internal/Parameters.java:78-80 | Different texts have different encodings. |
| UrlEncoding.SplitJoin | src/main/java/com/nettoolkit/internal/Parameters.java:71-75 | Splitting an `&`-joined list of `&`-free parts at `&` returns the parts. |
| UrlEncoding.FormRoundTrip | src/main/java/com/nettoolkit/internal/Parameters.java:56-86 | The form text of any list of pairs parses back to the same pairs, in order. |
| Requests.RequestFrom | src/main/java/com/nettoolkit/internal/request/BaseApiRequest.java:31-64 | A GET or DELETE puts the serialized parameters after `?` and has no body. A POST or PUT sends them as the body with a Content-Type header. Every request carries the key and Accept headers, its method and the timeout, and a non-positive timeout fails. |
| Requests.ApiRequest.constructor | src/main/java/com/nettoolkit/internal/request/BaseApiRequest.java:16-19 | A request starts with a fresh, empty parameter bag. |
| Requests.ApiRequest.ToHttpRequest | src/main/java/com/nettoolkit/internal/request/BaseApiRequest.java:31-64 | The HTTP request is the one built from the client's settings and the parameters serialized first. |
| Requests.Exchange | src/main/java/com/nettoolkit/internal/NetToolKitClient.java:76-91 | A request that cannot be built fails with its own error, and an answer that arrives is parsed as an ApiResponse; the only other errors are connection, API and parsing errors. |
| Requests.ApiRequest.Send | src/main/java/com/nettoolkit/internal/NetToolKitClient.java:76-91 | Sending builds the request and exchanges it through the client. |
| Requests.ExchangeV2 | src/main/java/com/nettoolkit/internal/ApiV2Response.java:14-18 | The same exchange, with the answer parsed as a version 2 response; its errors are connection, version 2 API or parsing errors. |
| Requests.ApiRequest.SendV2 | src/main/java/com/nettoolkit/dashboards/CreateMetricsRequest.java:160 | The batch requests build the request the same way and parse the answer as a version 2 response. |
| Requests.EmptyQueryKeepsQuestionMark | src/main/java/com/nettoolkit/internal/request/BaseApiRequest.java:37-40 | A GET with no parameters still ends its URL with `?`. |
| Requests.RequestAndHelperUrlsDiffer | src/main/java/com/nettoolkit/internal/NetToolKitClient.java:155-156 | For an empty query, the request object's URL is the client helper's URL plus a trailing `?`. |
| Requests.BodyAlwaysAttached | src/main/java/com/nettoolkit/internal/request/BaseApiRequest.java:44-49 | A POST or PUT always attaches its serialized text as the body, even when that text is empty. |
| ApiClient.NetToolKitClient.constructor | src/main/java/com/nettoolkit/internal/NetToolKitClient.java:35-37 | A client made from a key alone uses HTTPS and the 3000 ms timeout. |
| ApiClient.NetToolKitClient.WithProtocol | src/main/java/com/nettoolkit/internal/NetToolKitClient.java:39-51 | The key and the protocol are as given, and the timeout is 3000 ms. |
| ApiClient.NetToolKitClient.SetApiKey | src/main/java/com/nettoolkit/internal/NetToolKitClient.java:55 | The setter changes the key and nothing else. |
| ApiClient.NetToolKitClient.SetUseHttps | src/main/java/com/nettoolkit/internal/NetToolKitClient.java:57 | The setter changes the protocol choice and nothing else. |
| ApiClient.NetToolKitClient.SetTimeout | src/main/java/com/nettoolkit/internal/NetToolKitClient.java:59 | The setter changes the timeout and nothing else. |
| ApiClient.ProtocolIff | src/main/java/com/nettoolkit/internal/NetToolKitClient.java:65-70 | The protocol is `https://` if and only if HTTPS is on, and `http://` otherwise. |
| ApiClient.DefaultUrl | src/main/java/com/nettoolkit/internal/NetToolKitClient.java:61-74 | With HTTPS on, a path's URL is `https://api.nettoolkit.com` followed by the path. |
| ApiClient.NetToolKitClient.RequestOf | src/main/java/com/nettoolkit/internal/NetToolKitClient.java:148-173 | The helper appends the query after `?` only when it is present and non-empty, and attaches only a non-empty body. It sets Content-Type only when given, always sets the key and Accept headers, and fails on a non-positive timeout. |
| ApiClient.NetToolKitClient.SendHttpRequest | src/main/java/com/nettoolkit/internal/NetToolKitClient.java:148-181 | The helper builds its request and returns what the transport answers. |
| ApiClient.HelperContentTypes | src/main/java/com/nettoolkit/internal/NetToolKitClient.java:96-144 | GET and DELETE helpers send no body and no Content-Type. Text POST and PUT bodies are sent as form content, and JSON bodies as `application/json` with the object's JSON text. |
| ApiClient.EmptyQueryNoQuestionMark | src/main/java/com/nettoolkit/internal/NetToolKitClient.java:155-156 | A helper GET with a missing or empty query has no `?`. |
| Responses.ParseResponse | src/main/java/com/nettoolkit/internal/ApiResponse.java:39-55 | An empty or missing body is refused as an empty response. Parsing succeeds exactly when the body is a JSON object whose 32-bit `code` is below 2000. A code of 2000 or more raises an API error with that code and the `message` member, and every other failure is a parsing error. |
| Responses.ParseResponseLowCodes | src/main/java/com/nettoolkit/internal/ApiResponse.java:47-51 | Every object whose code is a 32-bit number below 2000 is accepted unchanged. |
| Responses.ParseResponseWrapsCode | src/main/java/com/nettoolkit/internal/ApiResponse.java:47 | A code of 2^32+5 reads as 5, so the answer is accepted. |
| Responses.NewApiResponse | src/main/java/com/nettoolkit/internal/ApiResponse.java:14-18 | A response exists exactly when its body parses, and it then keeps the raw text and the parsed body; otherwise the parse error is raised. |
| Responses.Results | src/main/java/com/nettoolkit/internal/ApiResponse.java:22-28 | The results are the `results` array when there is one; otherwise a parsing error shows the body. |
| Responses.ClientHelpersAgree | src/main/java/com/nettoolkit/internal/NetToolKitClient.java:204-238 | The client's own parse, results and first-result helpers give the same outcomes as those of ApiResponse. |
| Responses.ParseBody | src/main/java/com/nettoolkit/internal/ApiV2Response.java:25-40 | An empty or missing body is refused as an empty response, and every other failure is a version 2 API error or a parsing error. |
| Responses.ParseBodyNoErrors | src/main/java/com/nettoolkit/internal/ApiV2Response.java:30-36 | A JSON object with no non-empty `errors` array is accepted unchanged. |
| Responses.ParseBodyErrors | src/main/java/com/nettoolkit/internal/ApiV2Response.java:32-38 | A non-empty `errors` array raises a version 2 API error with one error per entry and each entry's 32-bit code. This happens exactly when every entry is an object with a numeric code; otherwise the result is a parsing error for the body. |
| Responses.NewApiV2Response | src/main/java/com/nettoolkit/internal/ApiV2Response.java:14-18 | A version 2 response exists exactly when its body parses, and it then keeps the raw text and the parsed body. |
| Responses.ParseBodyAsWrittenDiffers | src/main/java/com/nettoolkit/internal/ApiV2Response.java:33-34 | The method as written differs from the corrected one exactly when some reported code is not in the table. In that case it throws a NullPointerException. |
| Responses.ParseBodyAsWrittenThrows | src/main/java/com/nettoolkit/internal/ApiV2Response.java:33-34 | An `errors` array holding the code 3006 makes the method as written throw a NullPointerException instead of an ApiV2Exception. |
| StatusCodes.ValuesComplete | src/main/java/com/nettoolkit/internal/StatusCode.java:43-45 | Every constant is among the values that fill the lookup table. |
| StatusCodes.TableOfContents | src/main/java/com/nettoolkit/internal/StatusCode.java:41-46 | The table has an entry for a code exactly when some constant has that code, and the entry is that constant. |
| StatusCodes.CodesDistinct | src/main/java/com/nettoolkit/internal/StatusCode.java:8-39 | No two constants share a code. |
| StatusCodes.FromIntSpec | src/main/java/com/nettoolkit/internal/StatusCode.java:58-60 | A lookup finds a constant exactly when one has the code, and the constant found has that code. |
| StatusCodes.FromIntRoundTrip | src/main/java/com/nettoolkit/internal/StatusCode.java:58-60 | Looking up a constant's code gives back that constant. |
| StatusCodes.FromIntUnknown | src/main/java/com/nettoolkit/internal/StatusCode.java:58-60 | A code that no constant has gives null. |
| StatusCodes.UnlistedCodes | src/main/java/com/nettoolkit/internal/StatusCode.java:8-39 | 3006 and 9999 are not in the table. |
| StatusCodes.SuccessIffHttpOk | src/main/java/com/nettoolkit/internal/StatusCode.java:7-9 | A code below 2000 is a success if and only if its HTTP status is 200. |
| StatusCodes.ErrorsHaveErrorStatus | src/main/java/com/nettoolkit/internal/StatusCode.java:10-39 | Every error code maps to an HTTP status from 400 to 599. |
| StatusCodes.CodeInBand | src/main/java/com/nettoolkit/internal/StatusCode.java:7-39 | Every code lies in the thousand band its comment heading names. |
| Errors.ReadableStatusOfConstant | src/main/java/com/nettoolkit/exception/ApiException.java:21-32 | A listed code reads as the constant's name with the code in parentheses. |
| Errors.ReadableStatusOfUnlisted | src/main/java/com/nettoolkit/exception/ApiException.java:21-32 | An unlisted code reads as the bare number. |
| Errors.ApiMessageListed | src/main/java/com/nettoolkit/exception/ApiException.java:12-13 | The message of code 4001 is `INVALID_PARAMETER (4001): bad`. |
| Errors.ApiMessageUnlisted | src/main/java/com/nettoolkit/exception/ApiException.java:12-13 | The message of the unlisted code 3006 is `3006: bad`. |
| Errors.ApiStatus | src/main/java/com/nettoolkit/exception/ApiException.java:14-19 | The status of an API error is the constant with its code, and null exactly when no constant has it. |
| Errors.ExpectedAs | src/main/java/com/nettoolkit/exception/ResponseParsingException.java:81-95 | A response parsing exception carries the source and the message that names the resource, the field, what was expected and what was found. |
| Errors.Expected | src/main/java/com/nettoolkit/exception/ResponseParsingException.java:24-79 | Each expected-kind helper builds that exception with its own wording. |
| Errors.ExpectedNamesItsType | src/main/java/com/nettoolkit/exception/ResponseParsingException.java:24-79 | Two helpers that produce the same message expect the same kind, so a message names what was expected. |
| Errors.BuildMessage | src/main/java/com/nettoolkit/exception/ApiV2Exception.java:21-28 | The loop appends, in list order, one line per error to the header; the code is read as it arrived. |
| Errors.V2MessageLine | src/main/java/com/nettoolkit/exception/ApiV2Exception.java:23-26 | The line of the error at position i sits between the lines of the errors before it and the lines of those after it. |
| Errors.V2MessageSingle | src/main/java/com/nettoolkit/exception/ApiV2Exception.java:22-27 | The message for one error is the header, a new line, `- ` and the same text an ApiException shows. |
| Errors.V2MessageAsWritten | src/main/java/com/nettoolkit/exception/ApiV2Exception.java:21-28 | The method as written can only fail with a NullPointerException. |
| Errors.V2MessageAsWrittenThrowsIff | src/main/java/com/nettoolkit/exception/ApiV2Exception.java:24 | The method as written throws exactly when some error's code is not in the table. |
| Errors.V2MessageAsWrittenAgrees | src/main/java/com/nettoolkit/exception/ApiV2Exception.java:21-28 | When the method as written does not throw, it builds the corrected message. |
| Errors.V2MessageAsWrittenThrows | src/main/java/com/nettoolkit/exception/ApiV2Exception.java:24 | An error with code 3006 makes the method as written throw; the corrected message shows `3006: bad`. |
| Errors.ApiErrorFromJson | src/main/java/com/nettoolkit/exception/ApiV2Exception.java:60-62 | An error entry fails only with a JSON error. |
| Errors.ApiErrorList | src/main/java/com/nettoolkit/exception/ApiV2Exception.java:64-70 | The loop converts every entry in order and stops at the first failure. |
| Errors.ApiErrorListSpec | src/main/java/com/nettoolkit/exception/ApiV2Exception.java:64-70 | The list is read exactly when every entry is an object with a numeric code. Each error then has the entry's 32-bit code and its `message`, or an empty text; otherwise the error is a JSON error. |
| GeoProvider.StringValuesDistinct | src/main/java/com/nettoolkit/geo/Provider.java:4-10 | No two providers share a string value or a name. |
| GeoProvider.ValueIsNotName | src/main/java/com/nettoolkit/geo/Provider.java:4-10 | No string value equals any constant's name. |
| GeoProvider.FromStringValue | src/main/java/com/nettoolkit/geo/Provider.java:20-26 | Each provider's string value is read back as that provider. |
| GeoProvider.FromStringName | src/main/java/com/nettoolkit/geo/Provider.java:27-29 | Each provider's name is read back as that provider. |
| GeoProvider.FromStringKnownIff | src/main/java/com/nettoolkit/geo/Provider.java:20-35 | A text reads as something other than UNKNOWN exactly when it is a known provider's value or name; null and all other texts read as UNKNOWN. |
| GeoPrecision.StringValuesDistinct | src/main/java/com/nettoolkit/geo/Precision.java:4-8 | No two precisions share a string value or a name. |
| GeoPrecision.ValueIsNotName | src/main/java/com/nettoolkit/geo/Precision.java:4-8 | No string value equals any constant's name. |
| GeoPrecision.FromStringValue | src/main/java/com/nettoolkit/geo/Precision.java:16-22 | Each precision's string value is read back as that precision. |
| GeoPrecision.FromStringName | src/main/java/com/nettoolkit/geo/Precision.java:23-25 | Each precision's name is read back as that precision. |
| GeoPrecision.FromStringKnownIff | src/main/java/com/nettoolkit/geo/Precision.java:16-31 | A text reads as something other than UNKNOWN exactly when it is a known precision's value or name. |
| ChannelTypes.NameIsUpper | src/main/java/com/nettoolkit/dashboards/ChannelType.java:5-10 | Every constant's name is upper case. |
| ChannelTypes.ValueOf | src/main/java/com/nettoolkit/dashboards/ChannelType.java:14 | valueOf finds the constant with exactly that name, and fails only when there is none. |
| ChannelTypes.FromString | src/main/java/com/nettoolkit/dashboards/ChannelType.java:12-15 | Null throws a NullPointerException. Any other text gives the constant named by its upper-case form, and fails when there is none. |
| ChannelTypes.FromStringIgnoresCase | src/main/java/com/nettoolkit/dashboards/ChannelType.java:13 | Lower-casing or upper-casing a text does not change what it reads as. |
| ChannelTypes.FromStringOfName | src/main/java/com/nettoolkit/dashboards/ChannelType.java:12-15 | Each type's name reads back as that type, in either case. |
| ChannelTypes.FromStringRefusesUnknown | src/main/java/com/nettoolkit/dashboards/ChannelType.java:12-15 | `unknown` and the empty text are refused. |
| Attributes.AttributeMap.constructor | src/main/java/com/nettoolkit/dashboards/AttributeMap.java:9 | A new map is empty. |
| Attributes.AttributeMap.SetText | src/main/java/com/nettoolkit/dashboards/AttributeMap.java:11-14 | A text value is stored under its key and the map returned; a null text throws and changes nothing. |
| Attributes.AttributeMap.SetNumber | src/main/java/com/nettoolkit/dashboards/AttributeMap.java:16-19 | The number is stored under its key and the map returned. |
| Attributes.AttributeMap.SetFlag | src/main/java/com/nettoolkit/dashboards/AttributeMap.java:21-24 | The flag is stored under its key and the map returned. |
| Attributes.AppliedKeys | src/main/java/com/nettoolkit/dashboards/AttributeMap.java:11-24 | After a series of settings, the keys present are exactly the keys that were set. |
| Attributes.AppliedValue | src/main/java/com/nettoolkit/dashboards/AttributeMap.java:11-24 | Each key holds the value of the last setting for it. |
| Attributes.ToJsonAfterSettings | src/main/java/com/nettoolkit/dashboards/AttributeMap.java:11-28 | The JSON of a map built by settings has exactly the keys set, each with the JSON of its last value. |
| Geocoding.Coordinate | src/main/java/com/nettoolkit/geo/Geocode.java:84-85 | A coordinate is absent when its member is missing, read when the member is a number, and a JSON error otherwise. |
| Geocoding.FromJson | src/main/java/com/nettoolkit/geo/Geocode.java:67-88 | Decoding succeeds exactly when both coordinates can be read, otherwise fails with a JSON error, and keeps the original object. |
| Geocoding.FromJsonTextFields | src/main/java/com/nettoolkit/geo/Geocode.java:69-81 | Each text field is null exactly when its member is missing or null, and is otherwise the member's text. |
| Geocoding.FromJsonDefaults | src/main/java/com/nettoolkit/geo/Geocode.java:82-85 | A coordinate is absent exactly when its member is missing, and a missing provider or precision reads as UNKNOWN. |
| Geocoding.FromJsonFailsIff | src/main/java/com/nettoolkit/geo/Geocode.java:84-85 | Decoding fails exactly when a coordinate member is present but is not a number. |
| Geocoding.CoordinatesReadBack | src/main/java/com/nettoolkit/geo/Geocode.java:82-85 | On a decoded geocode, reading a coordinate throws a NullPointerException exactly when the response had no such member; otherwise it gives that member's number as a double. |
| Geocoding.TokensIff | src/main/java/com/nettoolkit/geo/Geocode.java:128-173 | The text shows a `name=value` token exactly for each field that is present. |
| Geocoding.ToTextShowsProviderNotCountry | src/main/java/com/nettoolkit/geo/Geocode.java:126-177 | The text always shows the provider and precision values and never depends on the country fields. |
| Geocoding.GeocodesOfResults | src/main/java/com/nettoolkit/geo/GeocodeRequest.java:113-131 | The list is read exactly when every entry is an object that decodes. It then has one geocode per entry in order; otherwise the error shows an entry. |
| Geocoding.GeocodeRequest.constructor | src/main/java/com/nettoolkit/geo/GeocodeRequest.java:23-25 | A new request is a GET with an empty bag. |
| Geocoding.GeocodeRequest.SetField | src/main/java/com/nettoolkit/geo/GeocodeRequest.java:36-94 | Each text setter stores its value under its own parameter key. |
| Geocoding.GeocodeRequest.SetProvider | src/main/java/com/nettoolkit/geo/GeocodeRequest.java:102-105 | The provider is stored as its string value; a null provider throws and changes nothing. |
| Geocoding.GeocodeRequest.Send | src/main/java/com/nettoolkit/geo/GeocodeRequest.java:113-131 | Sending performs a GET to `/v1/geo/geocodes`, then decodes the results in order. |
| GatekeeperRequests.UuidFromText | src/main/java/com/nettoolkit/gatekeeper/AddVisitorRequest.java:57-59 | Null throws a NullPointerException and a text that is not a UUID throws; a UUID text is parsed. |
| GatekeeperRequests.VisitorsPathIdentifies | src/main/java/com/nettoolkit/gatekeeper/AddVisitorRequest.java:33-35 | Different group ids give different paths, and a missing id gives `.../null/visitors`. |
| GatekeeperRequests.CaptchaPathIdentifies | src/main/java/com/nettoolkit/gatekeeper/ReportCaptchaAttemptRequest.java:31-33 | Different visit ids give different paths, and a missing id gives `.../null/captcha`. |
| GatekeeperRequests.ExchangeIsNeverBadArgument | src/main/java/com/nettoolkit/internal/NetToolKitClient.java:76-91 | The client never raises a bad argument error. |
| GatekeeperRequests.GuardedIff | src/main/java/com/nettoolkit/gatekeeper/AddVisitorRequest.java:92-97 | A send fails with BadArgumentException exactly when the group id is missing. The message is then `Missing visitor group ID (argument = null)`. |
| GatekeeperRequests.AddVisitorRequest.constructor | src/main/java/com/nettoolkit/gatekeeper/AddVisitorRequest.java:25-27 | A new request has no group id and an empty bag. |
| GatekeeperRequests.AddVisitorRequest.SetVisitorGroupId | src/main/java/com/nettoolkit/gatekeeper/AddVisitorRequest.java:44-47 | The group id is kept for the path. |
| GatekeeperRequests.AddVisitorRequest.SetVisitorGroupIdText | src/main/java/com/nettoolkit/gatekeeper/AddVisitorRequest.java:57-59 | A UUID text sets the group id; any other text throws and leaves the id unchanged. |
| GatekeeperRequests.AddVisitorRequest.SetVisitor | src/main/java/com/nettoolkit/gatekeeper/AddVisitorRequest.java:68-71 | The visitor is stored under `visitor`. |
| GatekeeperRequests.AddVisitorRequest.Expiration | src/main/java/com/nettoolkit/gatekeeper/AddVisitorRequest.java:81-85 | The number is stored first. A null unit then throws, leaving only the number stored; otherwise the unit's name is stored too. |
| GatekeeperRequests.AddVisitorRequest.Send | src/main/java/com/nettoolkit/gatekeeper/AddVisitorRequest.java:92-97 | With no group id the send is refused; otherwise the request goes to the client. |
| GatekeeperRequests.RemoveVisitorRequest.constructor | src/main/java/com/nettoolkit/gatekeeper/RemoveVisitorRequest.java:28-30 | A new request has no group id and an empty bag. |
| GatekeeperRequests.RemoveVisitorRequest.SetVisitorGroupId | src/main/java/com/nettoolkit/gatekeeper/RemoveVisitorRequest.java:44-47 | The group id is kept for the path. |
| GatekeeperRequests.RemoveVisitorRequest.SetVisitorGroupIdText | src/main/java/com/nettoolkit/gatekeeper/RemoveVisitorRequest.java:57-59 | A UUID text sets the group id; any other text throws and leaves the id unchanged. |
| GatekeeperRequests.RemoveVisitorRequest.SetVisitor | src/main/java/com/nettoolkit/gatekeeper/RemoveVisitorRequest.java:68-71 | The visitor is stored under `visitor`. |
| GatekeeperRequests.RemoveVisitorRequest.Send | src/main/java/com/nettoolkit/gatekeeper/RemoveVisitorRequest.java:78-83 | With no group id the send is refused; otherwise the DELETE goes to the client. |
| GatekeeperRequests.ReportCaptchaAttemptRequest.constructor | src/main/java/com/nettoolkit/gatekeeper/ReportCaptchaAttemptRequest.java:23-25 | A new request has no visit id and an empty bag. |
| GatekeeperRequests.ReportCaptchaAttemptRequest.SetVisitId | src/main/java/com/nettoolkit/gatekeeper/ReportCaptchaAttemptRequest.java:42-45 | The visit id is kept for the path. |
| GatekeeperRequests.ReportCaptchaAttemptRequest.SetVisitIdText | src/main/java/com/nettoolkit/gatekeeper/ReportCaptchaAttemptRequest.java:55-57 | A UUID text sets the visit id; any other text throws and leaves the id unchanged. |
| GatekeeperRequests.ReportCaptchaAttemptRequest.SetStatus | src/main/java/com/nettoolkit/gatekeeper/ReportCaptchaAttemptRequest.java:66-69 | The status is stored as its name, or as `null`. |
| GatekeeperRequests.ReportCaptchaAttemptRequest.Send | src/main/java/com/nettoolkit/gatekeeper/ReportCaptchaAttemptRequest.java:76-78 | The request goes to the client unguarded, even without a visit id. |
| GatekeeperRequests.AddVisitorBody | src/main/java/com/nettoolkit/gatekeeper/AddVisitorRequest.java:68-85 | The JSON body holds the visitor, unless it is null, and the expiration number and unit. |
| GatekeeperRequests.RemoveVisitorQuery | src/main/java/com/nettoolkit/gatekeeper/RemoveVisitorRequest.java:68-71 | The DELETE query is exactly `visitor=` and the encoded visitor; a null visitor is sent as `null`. |
| ChannelRequests.SslPreferences | src/main/java/com/nettoolkit/dashboards/CreateChannelRequest.java:63-73 | The SSL preferences hold exactly the URL, when one is given. |
| ChannelRequests.PingPreferences | src/main/java/com/nettoolkit/dashboards/CreateChannelRequest.java:83-104 | The ping preferences always hold the time, plus the domain and unit when they are given. |
| ChannelRequests.HttpPreferences | src/main/java/com/nettoolkit/dashboards/CreateChannelRequest.java:117-164 | The HTTP preferences always hold the time, plus the method, URL, body and unit when they are given. The headers are never stored. |
| ChannelRequests.DurationPreferences | src/main/java/com/nettoolkit/dashboards/CreateChannelRequest.java:172-182 | The duration preferences hold exactly the default colour, when one is given. |
| ChannelRequests.CreateChannelRequest.constructor | src/main/java/com/nettoolkit/dashboards/CreateChannelRequest.java:14-16 | A new request has an empty bag. |
| ChannelRequests.CreateChannelRequest.SetName | src/main/java/com/nettoolkit/dashboards/CreateChannelRequest.java:31-34 | The name is stored under `name`. |
| ChannelRequests.CreateChannelRequest.SetDisplayName | src/main/java/com/nettoolkit/dashboards/CreateChannelRequest.java:42-45 | The display name is stored under `display_name`. |
| ChannelRequests.CreateChannelRequest.TypeSimple | src/main/java/com/nettoolkit/dashboards/CreateChannelRequest.java:52-55 | The type is set to `SIMPLE` and the preferences are left as they were. |
| ChannelRequests.CreateChannelRequest.TypeSsl | src/main/java/com/nettoolkit/dashboards/CreateChannelRequest.java:63-73 | The type is set to `SSL` and the preferences are replaced. |
| ChannelRequests.CreateChannelRequest.TypePing | src/main/java/com/nettoolkit/dashboards/CreateChannelRequest.java:83-104 | The type is set to `PING` and the preferences are replaced. |
| ChannelRequests.CreateChannelRequest.TypeHttp | src/main/java/com/nettoolkit/dashboards/CreateChannelRequest.java:117-164 | The type is set to `HTTP` first. A null header in the list then throws a parsing exception that leaves the earlier preferences in place; otherwise the preferences are replaced. |
| ChannelRequests.HttpHeadersDropped | src/main/java/com/nettoolkit/dashboards/CreateChannelRequest.java:137-143 | As written, the stored HTTP preferences never have a `headers` member, whatever list is given, while the intended preferences do. |
| ChannelRequests.HttpHeadersKept | src/main/java/com/nettoolkit/dashboards/CreateChannelRequest.java:137-143 | With the list stored, the preferences hold `headers` exactly when a list is given: one object per header with its key and value, in order. Every other member is unchanged. |
| ChannelRequests.CreateChannelRequest.TypeDuration | src/main/java/com/nettoolkit/dashboards/CreateChannelRequest.java:172-182 | The type is set to `DURATION` and the preferences are replaced. |
| ChannelRequests.CreateChannelRequest.Send | src/main/java/com/nettoolkit/dashboards/CreateChannelRequest.java:190-193 | Sending performs a POST to the channels path and reads the channel from the first result. |
| ChannelRequests.SimpleKeepsPreferences | src/main/java/com/nettoolkit/dashboards/CreateChannelRequest.java:52-73 | Choosing SIMPLE after SSL sends type `SIMPLE` with the stale SSL preferences. |
| ChannelRequests.SecondTypeWins | src/main/java/com/nettoolkit/dashboards/CreateChannelRequest.java:63-182 | After two typed choices, the body shows only the second type and its preferences. |
| ChannelRequests.StoredTypeReadsBack | src/main/java/com/nettoolkit/dashboards/ChannelType.java:12-15 | The stored type name reads back as the same channel type. |
| SignalBatches.BatchInOrder | src/main/java/com/nettoolkit/dashboards/CreateMetricsRequest.java:150-158 | The batch is built exactly when every item is non-null and serializes, and then has one JSON object per item, in order. Otherwise the first bad item decides: a null item gives the uncaught NullPointerException of `toJson()`, and an item that fails to serialize gives a parsing error about that item. |
| SignalBatches.CreateMetricsRequest.constructor | src/main/java/com/nettoolkit/dashboards/CreateMetricsRequest.java:15-19 | A new request has an empty bag and no gauges. |
| SignalBatches.CreateMetricsRequest.SetSignalId | src/main/java/com/nettoolkit/dashboards/CreateMetricsRequest.java:34-37 | The id is stored under `signal_id`. |
| SignalBatches.CreateMetricsRequest.SetSignalName | src/main/java/com/nettoolkit/dashboards/CreateMetricsRequest.java:46-49 | The name is stored under `signal_name`. |
| SignalBatches.CreateMetricsRequest.SetSignalDescription | src/main/java/com/nettoolkit/dashboards/CreateMetricsRequest.java:58-61 | The description is stored under `signal_description`. |
| SignalBatches.CreateMetricsRequest.AddGauge | src/main/java/com/nettoolkit/dashboards/CreateMetricsRequest.java:121-124 | The gauge, possibly null, is appended to the list. |
| SignalBatches.CreateMetricsRequest.AddGauges | src/main/java/com/nettoolkit/dashboards/CreateMetricsRequest.java:133-136 | The gauges, null elements included, are appended in order; a null list throws and changes nothing. |
| SignalBatches.CreateMetricsRequest.AddGaugeNow | src/main/java/com/nettoolkit/dashboards/CreateMetricsRequest.java:71-76 | A gauge stamped with the current time is appended. |
| SignalBatches.CreateMetricsRequest.AddGaugeAt | src/main/java/com/nettoolkit/dashboards/CreateMetricsRequest.java:86-112 | A gauge with the given time and optional attributes is appended; a null time throws and changes nothing. |
| SignalBatches.CreateMetricsRequest.Send | src/main/java/com/nettoolkit/dashboards/CreateMetricsRequest.java:150-161 | A null gauge (a NullPointerException) or one that fails to serialize (a parsing error) aborts the send with the bag unchanged. Otherwise `gauges` holds the batch and the request goes out as version 2. |
| SignalBatches.CreateLogsRequest.constructor | src/main/java/com/nettoolkit/dashboards/CreateLogsRequest.java:14-19 | A new request has an empty bag and no logs. |
| SignalBatches.CreateLogsRequest.SetSignalId | src/main/java/com/nettoolkit/dashboards/CreateLogsRequest.java:30-36 | The id is stored under `signal_id`. |
| SignalBatches.CreateLogsRequest.SetSignalName | src/main/java/com/nettoolkit/dashboards/CreateLogsRequest.java:44-47 | The name is stored under `signal_name`. |
| SignalBatches.CreateLogsRequest.SetSignalDescription | src/main/java/com/nettoolkit/dashboards/CreateLogsRequest.java:55-58 | The description is stored under `signal_description`. |
| SignalBatches.CreateLogsRequest.AddLog | src/main/java/com/nettoolkit/dashboards/CreateLogsRequest.java:113-116 | The log, possibly null, is appended to the list. |
| SignalBatches.CreateLogsRequest.AddLogs | src/main/java/com/nettoolkit/dashboards/CreateLogsRequest.java:125-128 | The logs, null elements included, are appended in order; a null list throws and changes nothing. |
| SignalBatches.CreateLogsRequest.AddLogNow | src/main/java/com/nettoolkit/dashboards/CreateLogsRequest.java:68-73 | A log stamped with the current time is appended. |
| SignalBatches.CreateLogsRequest.AddLogWithTrace | src/main/java/com/nettoolkit/dashboards/CreateLogsRequest.java:83-88 | A log whose body is the message and the stack trace is appended; a missing throwable throws and changes nothing. |
| SignalBatches.CreateLogsRequest.AddLogAt | src/main/java/com/nettoolkit/dashboards/CreateLogsRequest.java:99-104 | A log with the given time is appended; a null time throws and changes nothing. |
| SignalBatches.CreateLogsRequest.Send | src/main/java/com/nettoolkit/dashboards/CreateLogsRequest.java:136-147 | A null log (a NullPointerException) or one that fails to serialize (a parsing error) aborts the send with the bag unchanged. Otherwise `logs` holds the batch and the request goes out as version 2. |
| SignalBatches.SentGauges | src/main/java/com/nettoolkit/dashboards/CreateMetricsRequest.java:151-159 | The body's `gauges` array has one object per gauge, in order, and every gauge sent is non-null. |
| SignalBatches.SentLogs | src/main/java/com/nettoolkit/dashboards/CreateLogsRequest.java:137-145 | The body's `logs` array has one object per log, in order, and every log sent is non-null. |
| Durations.UuidField | src/main/java/com/nettoolkit/dashboards/DurationEvent.java:50-61 | A UUID member is read exactly when it is a UUID string; otherwise the exception names the field, expects a UUID and shows the value. |
| Durations.TimestampField | src/main/java/com/nettoolkit/dashboards/DurationEvent.java:86-97 | A timestamp is read exactly when the member is a number; otherwise the exception expects a Unix millisecond timestamp. |
| Durations.EventFromJson | src/main/java/com/nettoolkit/dashboards/DurationEvent.java:48-117 | An event decodes exactly when `id` and `span_id` are UUIDs, `name` is a string and `time` is a number. The fields are checked in that order, and the first bad one names the error; attributes are optional. |
| Durations.NullableTimestamp | src/main/java/com/nettoolkit/dashboards/DurationSpan.java:74-89 | A null or missing end time reads as absent and a number as the time; anything else is an error. |
| Durations.NullableAttributes | src/main/java/com/nettoolkit/dashboards/DurationSpan.java:90-105 | Null or missing attributes read as absent and an object as itself; anything else is an error. |
| Durations.NotEvents | src/main/java/com/nettoolkit/dashboards/DurationSpan.java:114-119 | The events error names the field and its expected type, and shows the entry as source. |
| Durations.SpanMembers | src/main/java/com/nettoolkit/dashboards/DurationSpan.java:36-105 | The members before the events decode exactly when both ids are UUIDs, the start time is a number, and the end time and attributes are null or of the right type. |
| Durations.SpanMembersFirstBad | src/main/java/com/nettoolkit/dashboards/DurationSpan.java:36-105 | The members are checked in the order `id`, `signal_id`, `start_time`, `end_time`, `attributes`. The first malformed one gives `expectedUuid`, `expectedUnixMsTimestamp` or `expectedJsonObject` naming that member, with the span as source. |
| Durations.ReadEvents | src/main/java/com/nettoolkit/dashboards/DurationSpan.java:106-145 | The loop reads the events in order, stopping at the first bad entry. |
| Durations.SpanFromResponseJson | src/main/java/com/nettoolkit/dashboards/DurationSpan.java:36-156 | The method gives the span decoded from the object. |
| Durations.SpanOfIff | src/main/java/com/nettoolkit/dashboards/DurationSpan.java:36-156 | A span decodes exactly when its members are well typed and every event decodes. The optional members are absent exactly when null. |
| Durations.EventsOfIff | src/main/java/com/nettoolkit/dashboards/DurationSpan.java:106-145 | The events are read exactly when they are null or an array of objects that decode, and are absent exactly when null. |
| Durations.SpanOfEvents | src/main/java/com/nettoolkit/dashboards/DurationSpan.java:121-153 | A decoded span holds the decoded events. |
| Durations.EventsOfInOrder | src/main/java/com/nettoolkit/dashboards/DurationSpan.java:126-144 | There is one event per entry, in order. |
| Durations.SpanEventsInOrder | src/main/java/com/nettoolkit/dashboards/DurationSpan.java:123-145 | A span's events list has one decoded event per entry, in order, and is empty when `events` is null. |
| Durations.SpanFirstBadEvent | src/main/java/com/nettoolkit/dashboards/DurationSpan.java:126-144 | The first bad entry decides the error: a non-object entry gives the events error, and an object passes on its event error unwrapped. |
| Durations.MilestoneOf | src/main/java/com/nettoolkit/dashboards/Duration.java:67-79 | A milestone reads its name, timestamp, failure flag (default false) and additional values; a null entry throws. |
| Durations.UuidOrThrow | src/main/java/com/nettoolkit/dashboards/Duration.java:21-22 | An id is read exactly when its text is a UUID; otherwise the UUID parse throws. |
| Durations.NewDuration | src/main/java/com/nettoolkit/dashboards/Duration.java:20-47 | The constructor gives the duration decoded from the object. |
| Durations.DurationNeedsIds | src/main/java/com/nettoolkit/dashboards/Duration.java:21-22 | A missing `id` or `channel_id` throws. |
| Durations.DurationMilestones | src/main/java/com/nettoolkit/dashboards/Duration.java:39-46 | With valid ids, a duration decodes exactly when milestones are missing or an array of objects. A milestones member that is not an array throws; otherwise there is one milestone per entry, in order. |
| Durations.DurationNullTimeIsEpoch | src/main/java/com/nettoolkit/dashboards/Duration.java:23-27 | A present start time that is not a number reads as the epoch. |
| GatekeeperRecords.ParsedUuid | src/main/java/com/nettoolkit/gatekeeper/Policy.java:42-47 | A UUID text parses; a missing or malformed one is a parsing error with the message and the text. |
| GatekeeperRecords.CollectStrings | src/main/java/com/nettoolkit/gatekeeper/Visit.java:50-57 | The loop reads every element's string form, in order. |
| GatekeeperRecords.IdsOfSpec | src/main/java/com/nettoolkit/gatekeeper/Policy.java:51-81 | A missing id list reads as empty. Otherwise the list is read exactly when every element is a UUID text, and then has one id per element, in order. |
| GatekeeperRecords.IdsOfFirstBad | src/main/java/com/nettoolkit/gatekeeper/Policy.java:54-63 | The first element that is not a UUID gives the error, with that element as source. |
| GatekeeperRecords.AppenderOf | src/main/java/com/nettoolkit/gatekeeper/Policy.java:92-112 | A missing appender gives no group, no time and no unit, and a null group id is absent. Any other group id must be a UUID or the appender is refused; the time and unit are read when present. |
| GatekeeperRecords.NewPolicy | src/main/java/com/nettoolkit/gatekeeper/Policy.java:41-121 | The constructor gives the policy decoded from the object. |
| GatekeeperRecords.PolicyNeedsId | src/main/java/com/nettoolkit/gatekeeper/Policy.java:42-47 | A null or non-UUID id is refused with `Unable to parse policy ID` and the text. |
| GatekeeperRecords.PolicyOfGroupIds | src/main/java/com/nettoolkit/gatekeeper/Policy.java:51-112 | With a valid id, a policy decodes exactly when both id lists and the appender do. The first bad list passes on its error, and the decoded fields hold the lists and the appender. |
| GatekeeperRecords.PolicyDefaults | src/main/java/com/nettoolkit/gatekeeper/Policy.java:83-120 | Missing optional members take their defaults: no name, priority 0, disabled, an empty description, and the bare appender. |
| GatekeeperRecords.VisitPolicyId | src/main/java/com/nettoolkit/gatekeeper/Visit.java:60-67 | A null policy id is absent and a UUID text is parsed; any other value is refused. |
| GatekeeperRecords.NewVisit | src/main/java/com/nettoolkit/gatekeeper/Visit.java:33-74 | The constructor gives the visit decoded from the object. |
| GatekeeperRecords.VisitOfIff | src/main/java/com/nettoolkit/gatekeeper/Visit.java:33-74 | A visit decodes exactly when its id is a UUID and its policy id is null or a UUID. A bad id is refused with `Unable to parse visit ID`. |
| GatekeeperRecords.VisitOptionalMembers | src/main/java/com/nettoolkit/gatekeeper/Visit.java:43-72 | The user id and creation time are present exactly when their members are, and the tags are read in order. |
| GatekeeperRecords.CreatedOfVisitWithoutTime | src/main/java/com/nettoolkit/gatekeeper/Visit.java:71-73 | A visit decoded without `created` throws when its creation time is read. |
| GatekeeperRecords.VisitorOf | src/main/java/com/nettoolkit/gatekeeper/VisitorGroup.java:93-108 | A visitor reads its value, its creation and expiry times when present, and its creator; a null entry throws. |
| GatekeeperRecords.GroupId | src/main/java/com/nettoolkit/gatekeeper/VisitorGroup.java:26-32 | A group id is read exactly when its text is a UUID; otherwise it is a parsing error showing the text. |
| GatekeeperRecords.NewVisitorGroup | src/main/java/com/nettoolkit/gatekeeper/VisitorGroup.java:25-52 | The constructor gives the visitor group decoded from the object. |
| GatekeeperRecords.VisitorGroupNeedsId | src/main/java/com/nettoolkit/gatekeeper/VisitorGroup.java:26-32 | A null id is refused with an empty source. |
| GatekeeperRecords.VisitorGroupVisitors | src/main/java/com/nettoolkit/gatekeeper/VisitorGroup.java:37-50 | With a valid id, a group decodes exactly when every visitor entry is an object. It then has one visitor per entry, in order; otherwise a NullPointerException is thrown. |
| GatekeeperRecords.NewPageGroup | src/main/java/com/nettoolkit/gatekeeper/PageGroup.java:21-41 | The constructor gives the page group decoded from the object. |
| GatekeeperRecords.PageGroupOfSpec | src/main/java/com/nettoolkit/gatekeeper/PageGroup.java:21-41 | A page group decodes exactly when its id is a UUID, and a null id is refused with an empty source. The pages are read in order. |
| GatekeeperLists.ListOfSpec | src/main/java/com/nettoolkit/gatekeeper/GetPoliciesRequest.java:35-47 | Missing results are refused. The list is read exactly when every entry is an object that decodes, and then has one record per entry, in order. |
| GatekeeperLists.ListOfFirstBad | src/main/java/com/nettoolkit/gatekeeper/GetPoliciesRequest.java:39-45 | The first bad entry decides: a non-object gives the fixed message with the entry, and a record that fails passes on its error. |
| GatekeeperLists.InvalidPolicyMessage | src/main/java/com/nettoolkit/gatekeeper/GetPoliciesRequest.java:40-43 | A non-object entry reads `Invalid policy encountered source = ` followed by the entry. |
| GatekeeperLists.GetPoliciesRequest.constructor | src/main/java/com/nettoolkit/gatekeeper/GetPoliciesRequest.java:27 | A new request is a GET with an empty bag. |
| GatekeeperLists.GetPoliciesRequest.Send | src/main/java/com/nettoolkit/gatekeeper/GetPoliciesRequest.java:35-47 | Sending performs a GET to the policies path and decodes one policy per result. |
| GatekeeperLists.GetVisitorGroupsRequest.constructor | src/main/java/com/nettoolkit/gatekeeper/GetVisitorGroupsRequest.java:27 | A new request is a GET with an empty bag. |
| GatekeeperLists.GetVisitorGroupsRequest.Send | src/main/java/com/nettoolkit/gatekeeper/GetVisitorGroupsRequest.java:35-48 | Sending performs a GET to the visitor groups path and decodes one group per result. |
| GatekeeperLists.GetPageGroupsRequest.constructor | src/main/java/com/nettoolkit/gatekeeper/GetPageGroupsRequest.java:27 | A new request is a GET with an empty bag. |
| GatekeeperLists.GetPageGroupsRequest.Send | src/main/java/com/nettoolkit/gatekeeper/GetPageGroupsRequest.java:35-47 | Sending performs a GET to the page groups path and decodes one page group per result. |

## Left out

- Networking, TLS set-up and the `HttpClient` object are not modelled. The transport is a parameter, and the `IllegalStateException` of a failed TLS set-up (src/main/java/com/nettoolkit/internal/NetToolKitClient.java:42-50) is not modelled.
- `ApiConnectionException`'s timeout branch is not modelled. It (src/main/java/com/nettoolkit/internal/NetToolKitClient.java:84-85) calls a three-argument constructor that `ApiConnectionException.java` does not declare, so every transport failure is modelled as the one-argument form.
- The sources of `sendV2`, `PutRequest` and `HttpMethod` are not part of this model. The model assumes that `sendV2` mirrors `send` with `ApiV2Response` parsing (`Requests.ExchangeV2`), and that a PUT is sent like a POST with a body (`Http.HttpMethod`).
- `URI.create` validation of the URL is not modelled: any path gives a request.
- The JSON library is modelled on the org.json behaviour listed above. Numeric strings are not converted by `getInt`, `getLong` or `getDouble`, and `optBoolean` reads only real booleans.
- A JSON number with a fraction or an exponent is not read as an integer. org.json's `getInt`, `getLong`, `optInt` and `optLong` accept any number and truncate it through `Number.intValue()`/`longValue()`. Because `Float64` is opaque, the model's `GetInt` and `GetLong` refuse such a number and `OptInt`, `OptLong` and `OptionalLong` read it as 0. The members below inherit this.
- Responses.ParseResponse: a `code` with a fraction (such as `2000.0`) gives a parsing error here, where Java truncates it and raises `ApiException(2000, "")`.
- Errors.ApiErrorFromJson: refuses a `code` with a fraction, which Java truncates.
- Durations.TimestampField: refuses a time with a fraction, which Java truncates, and so do Durations.EventFromJson and Durations.SpanMembers.
- Durations.DurationNullTimeIsEpoch: a `start_time` or `end_time` with a fraction reads as 0 here and as its truncation in Java; the same holds for the Gatekeeper records' `optInt`/`optLong` members.
- Strings are sequences of Unicode scalar values, while Java strings are UTF-16. Lone surrogates cannot be expressed, so `URLEncoder`'s replacement of them is not modelled.
- JSON text printing lists object members in ascending key order. org.json uses the backing `HashMap`'s order, and no property here depends on it.
- Floating point arithmetic is not modelled. `Float64` is opaque. A JSON integer read as a double is its integer text with `.0`, so integers too large for a double are not rounded.
- Geocoding.Coordinate: an integral coordinate is shown as its integer text with `.0` at every magnitude. Java's `Double.toString` switches to E-notation at 10^7 and above (10000000 prints as `1.0E7`), so `Geocode.toString` (`Geocoding.ToText`) differs from Java for such values.
- Case mapping (`toUpperCase`, `toLowerCase`) is ASCII-only. UUID parsing accepts only the canonical 8-4-4-4-12 hexadecimal form, not the shorter forms `UUID.fromString` tolerates.
- `Precision.asStringValue` does not exist in `Precision.java`, yet `Geocode.toString` calls it (src/main/java/com/nettoolkit/geo/Geocode.java:162-167). The model reads the private string value instead.
- Message texts of exceptions raised inside the JDK or the JSON library (`NullPointerException`, `JSONException`, `IllegalArgumentException`) are not modelled. Only their kind is kept (`Thrown(cause)`), and a `ParsingException` built from such a cause keeps the cause and the source.
- A null API key is not modelled: the key is a `string`.
- `Channel` decoding (`Channel.java`) is not part of this model. `CreateChannelRequest.send` returns the first result object the channel would be built from.
- `ChannelRequests.CreateChannelRequest.TypeHttp` models the `HttpHeader` list as the code uses it: the headers' JSON is built but never stored, so only a null header's exception is kept. The intended behaviour is recorded under "## Findings".
- `GaugeInput.toJson`, `LogRecordInput.toJson` and their `toString` are parameters of the batch `Send` methods, because those classes' serializers are not part of this model. The log severity fields are not modelled.
- The stack-trace text of `LogRecordInput.body(String, Throwable)` is a parameter.
- `OffsetDateTime` values are epoch milliseconds. Time zones and `OffsetDateTime.now()` are left out, and the clock is an argument.
- `AttributeMap.toString` and null attribute keys are not modelled.
- SignalBatches.CreateMetricsRequest.AddGaugeAt: stores the attribute map's entries as they are at the call, whereas the Java gauge keeps a reference, so later changes to the same map are not seen.
- GatekeeperRequests.ReportCaptchaAttemptRequest.SetStatus: models `CaptchaStatus` with the two constants `Solved` and `Failed`, because `CaptchaStatus.java` is not part of this model.
- Form text is proved for the key order the model keeps. The order of Java's `HashMap` is unspecified, so `ParameterBag.FormPairsPermutation` shows that every order sends the same pairs.

## Findings

| source | as written | input that shows it | evidently intended | confidence | as-written member | corrected member |
|---|---|---|---|---|---|---|
| src/main/java/com/nettoolkit/exception/ApiV2Exception.java:24 | The message calls `error.getStatusCode().toInt()`, but `getStatusCode()` is the `StatusCode.fromInt` lookup made at construction, which is null for a code missing from the table, so building the message throws `NullPointerException`. | One API error with code 3006 (unlisted) and message "bad". | The readable status of the raw code, as `getReadableStatus(int)` already handles unlisted codes, giving the line `- 3006: bad`. | high; not executed | Errors.V2MessageAsWrittenThrows | Errors.BuildMessage |
| src/main/java/com/nettoolkit/internal/ApiV2Response.java:33-34 | The `NullPointerException` above escapes `parseBody`, because only `JSONException` is caught. A version 2 answer that reports an unlisted code reaches the caller as a `NullPointerException` instead of an `ApiV2Exception`. | The body `{"errors":[{"code":3006}]}`. | An `ApiV2Exception` listing the error with code 3006 and an empty message. | high; not executed | Responses.ParseBodyAsWrittenThrows | Responses.ParseBodyErrors |
| src/main/java/com/nettoolkit/dashboards/CreateChannelRequest.java:137-143 | `typeHttp` converts every `HttpHeader` to JSON into a local `JSONArray` and never puts it into the preferences, so the headers given never reach the request. | `typeHttp("GET", url, [new HttpHeader("Accept", "text/plain")], null, 5, MINUTES)`: the stored preferences have no `headers` member. | The preferences hold the converted list under `headers`. | high; not executed | ChannelRequests.HttpHeadersDropped | ChannelRequests.HttpHeadersKept |
