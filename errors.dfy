/**
 * The SDK's exceptions: what each one carries and the message text it builds,
 * and the decoding of the error list a version 2 endpoint returns.
 */
module Errors {
  import opened Wrappers
  import opened JavaText
  import opened JsonData
  import opened StatusCodes
  import opened Sequences

  /** Exceptions raised by code outside the SDK; their message text is not part of this model. */
  datatype Cause =
    | JsonFault        // a `JSONException` from the JSON library
    | UuidFault        // the `IllegalArgumentException` of `UUID.fromString`
    | NullFault        // a `NullPointerException`
    | ConstantFault    // the `IllegalArgumentException` of `Enum.valueOf`
    | ArgumentFault    // the `IllegalArgumentException` of `HttpRequest.Builder.timeout`
    | ConnectionFault  // an `IOException`, `InterruptedException` or timeout from the HTTP client

  /** The message a parsing exception is built from: the SDK's own words, or those of the exception it wraps. */
  datatype Reason = Says(text: string) | FromCause(cause: Cause)

  /** One entry of a version 2 error response: the numeric code as sent, and its message. */
  datatype ApiError = ApiError(code: int, message: string)

  datatype Error =
    | Parsing(reason: Reason, source: string)           // ParsingException
    | ResponseParsing(reason: Reason, source: string)   // ResponseParsingException
    | Api(code: int, message: string)                   // ApiException
    | ApiV2(errors: seq<ApiError>)                      // ApiV2Exception
    | BadArgument(message: string, argument: string)    // BadArgumentException
    | ApiConnection(cause: Cause)                       // ApiConnectionException
    | Thrown(cause: Cause)                              // an outside exception the SDK lets through

  // ---------------------------------------------------------------------------
  // ApiException

  /** `getReadableStatusCode` / `getReadableStatus`: the constant's name and the code, or the bare code. */
  function ReadableStatus(code: int): string
  {
    match FromInt(code)
    case Some(s) => Name(s) + " (" + IntText(code) + ")"
    case None => IntText(code)
  }

  /** Every code in the table reads as its constant's name followed by the code in parentheses. */
  lemma ReadableStatusOfConstant(s: StatusCode)
    ensures ReadableStatus(Code(s)) == Name(s) + " (" + IntText(Code(s)) + ")"
  {
    FromIntRoundTrip(s);
  }

  /** A code outside the table reads as the bare decimal number. */
  lemma ReadableStatusOfUnlisted(code: int)
    requires forall s: StatusCode :: Code(s) != code
    ensures ReadableStatus(code) == IntText(code)
  {
    FromIntUnknown(code);
  }

  /** The message an `ApiException` is constructed with. */
  function ApiMessage(code: int, message: string): (r: string)
  {
    ReadableStatus(code) + ": " + message
  }

  /** A worked message for a listed code. */
  lemma ApiMessageListed()
    ensures ApiMessage(4001, "bad") == "INVALID_PARAMETER (4001): bad"
  {
    FromIntRoundTrip(InvalidParameter);
  }

  /** A worked message for the unlisted code 3006. */
  lemma ApiMessageUnlisted()
    ensures ApiMessage(3006, "bad") == "3006: bad"
  {
    UnlistedCodes();
  }

  /** `ApiException.getStatusCode()`: the constant for the code, or null for an unlisted code. */
  function ApiStatus(e: Error): (r: Option<StatusCode>)
    requires e.Api?
    ensures r.Some? ==> Code(r.value) == e.code
    ensures r.None? <==> forall s: StatusCode :: Code(s) != e.code
  {
    FromIntSpec(e.code);
    FromInt(e.code)
  }

  // ---------------------------------------------------------------------------
  // ParsingException, ResponseParsingException, BadArgumentException

  const ResponsePrefix := "Encountered an error while parsing API response. "

  /**
   * The exception's message where the SDK determines it; `None` where it is the message of a
   * wrapped outside exception, or where the exception has no message of its own.
   */
  function Message(e: Error): (r: Option<string>)
    ensures e.Parsing? && e.reason.Says? ==> r == Some(e.reason.text + " source = " + e.source)
    ensures e.ResponseParsing? && e.reason.Says? ==> r == Some(ResponsePrefix + e.reason.text + " source = " + e.source)
    ensures e.BadArgument? ==> r == Some(e.message + " (argument = " + e.argument + ")")
    ensures e.Api? ==> r == Some(ApiMessage(e.code, e.message))
    ensures e.ApiV2? ==> r == Some(V2Message(e.errors))
    ensures e.ApiConnection? || e.Thrown? ==> r == None
  {
    match e
    case Parsing(Says(text), source) => Some(text + " source = " + source)
    case ResponseParsing(Says(text), source) => Some(ResponsePrefix + text + " source = " + source)
    case Api(code, message) => Some(ApiMessage(code, message))
    case ApiV2(errors) => Some(V2Message(errors))
    case BadArgument(message, argument) => Some(message + " (argument = " + argument + ")")
    case _ => None
  }

  /** `getSource()` of the two parsing exceptions. */
  function Source(e: Error): (r: string)
    requires e.Parsing? || e.ResponseParsing?
  {
    e.source
  }

  /** The type words of the `expected…` factories. */
  datatype Expectation = AString | AUuid | AUnixMsTimestamp | AJsonObject | AJsonArray

  function TypeWords(x: Expectation): string
  {
    match x
    case AString => "a valid string"
    case AUuid => "a valid UUID"
    case AUnixMsTimestamp => "a Unix millisecond timestamp"
    case AJsonObject => "a JSON object"
    case AJsonArray => "a JSON array"
  }

  /** The base message of `expected(resource, field, type, actual, …)`, for any words naming the type. */
  function ExpectedWords(resource: string, field: string, words: string, actual: string): string
  {
    ("Expected " + resource + "." + field + " to be ") + words + (", but instead got " + actual + ".")
  }

  /** The base message of one of the five factories with fixed type words. */
  function ExpectedText(resource: string, field: string, x: Expectation, actual: string): string
  {
    ExpectedWords(resource, field, TypeWords(x), actual)
  }

  /** `expected(resource, field, type, actual, cause, source)`. */
  function ExpectedAs(resource: string, field: string, words: string, actual: string, source: string): (r: Error)
    ensures r.ResponseParsing? && r.source == source
    ensures Message(r) == Some(ResponsePrefix + ExpectedWords(resource, field, words, actual) + " source = " + source)
  {
    ResponseParsing(Says(ExpectedWords(resource, field, words, actual)), source)
  }

  /** `expectedString`, `expectedUuid`, `expectedUnixMsTimestamp`, `expectedJsonObject`, `expectedJsonArray`. */
  function Expected(resource: string, field: string, x: Expectation, actual: string, source: string): (r: Error)
    ensures r.ResponseParsing? && r.source == source
    ensures Message(r) == Some(ResponsePrefix + ExpectedText(resource, field, x, actual) + " source = " + source)
  {
    ExpectedAs(resource, field, TypeWords(x), actual, source)
  }

  /** The middle of a three-part concatenation can be cut back out. */
  lemma Middle(p: string, w: string, s: string)
    ensures (p + w + s)[|p|..|p + w + s| - |s|] == w
  {
  }

  /** The five factories differ only in their type words, and the message tells which one was used. */
  lemma ExpectedNamesItsType(resource: string, field: string, x: Expectation, y: Expectation, actual: string)
    requires ExpectedText(resource, field, x, actual) == ExpectedText(resource, field, y, actual)
    ensures x == y
  {
    var p := "Expected " + resource + "." + field + " to be ";
    var s := ", but instead got " + actual + ".";
    Middle(p, TypeWords(x), s);
    Middle(p, TypeWords(y), s);
    assert TypeWords(x) == TypeWords(y);
    match x
    case AString => assert TypeWords(x)[2] == 'v' && TypeWords(x)[8] == 's';
    case AUuid => assert TypeWords(x)[2] == 'v' && TypeWords(x)[8] == 'U';
    case AUnixMsTimestamp => assert TypeWords(x)[2] == 'U';
    case AJsonObject => assert TypeWords(x)[2] == 'J' && TypeWords(x)[7] == 'o';
    case AJsonArray => assert TypeWords(x)[2] == 'J' && TypeWords(x)[7] == 'a';
  }

  // ---------------------------------------------------------------------------
  // ApiV2Exception

  const V2Header := "Encountered one or more errors from the API."

  /** The line `buildMessage` appends for one error: its readable status, a colon and its message. */
  function V2Line(e: ApiError): string
  {
    "\n- " + ApiMessage(e.code, e.message)
  }

  function V2Lines(errors: seq<ApiError>): string
  {
    if errors == [] then "" else V2Lines(errors[..|errors| - 1]) + V2Line(errors[|errors| - 1])
  }

  /** The message of an `ApiV2Exception`, with every error's code read as sent. */
  function V2Message(errors: seq<ApiError>): string
  {
    V2Header + V2Lines(errors)
  }

  /** `buildMessage`: the header, then one line per error in list order. */
  method BuildMessage(errors: seq<ApiError>) returns (msg: string)
    ensures msg == V2Message(errors)
  {
    msg := V2Header;
    for i := 0 to |errors|
      invariant msg == V2Header + V2Lines(errors[..i])
    {
      V2LinesSnoc(errors, i);
      AppendAssociative(V2Header, V2Lines(errors[..i]), V2Line(errors[i]));
      msg := msg + V2Line(errors[i]);
    }
    assert errors[..|errors|] == errors;
  }

  lemma V2LinesSnoc(errors: seq<ApiError>, i: nat)
    requires i < |errors|
    ensures V2Lines(errors[..i + 1]) == V2Lines(errors[..i]) + V2Line(errors[i])
  {
    assert errors[..i + 1][..i] == errors[..i];
  }

  /** The lines of two lists are the lines of each, in order. */
  lemma {:induction false} V2LinesAppend(a: seq<ApiError>, b: seq<ApiError>)
    ensures V2Lines(a + b) == V2Lines(a) + V2Lines(b)
  {
    if b != [] {
      var init := b[..|b| - 1];
      assert (a + b)[..|a + b| - 1] == a + init;
      V2LinesAppend(a, init);
      AppendAssociative(V2Lines(a), V2Lines(init), V2Line(b[|b| - 1]));
    } else {
      assert a + b == a;
    }
  }

  /** Each error contributes exactly its own line, between those of the errors before and after it. */
  lemma V2MessageLine(errors: seq<ApiError>, i: nat)
    requires i < |errors|
    ensures V2Message(errors) == V2Message(errors[..i]) + V2Line(errors[i]) + V2Lines(errors[i + 1..])
  {
    var before, e, after := errors[..i], errors[i], errors[i + 1..];
    assert errors == (before + [e]) + after;
    V2LinesAppend(before + [e], after);
    V2LinesAppend(before, [e]);
    assert [e][..0] == [];
    assert V2Lines([e]) == V2Line(e);
    Regroup(V2Header, V2Lines(before), V2Line(e), V2Lines(after));
  }

  lemma Regroup(h: string, a: string, b: string, c: string)
    ensures h + ((a + b) + c) == ((h + a) + b) + c
  {
  }

  /** A single error's line carries the same text an `ApiException` with that code and message would. */
  lemma V2MessageSingle(e: ApiError)
    ensures V2Message([e]) == V2Header + "\n- " + ApiMessage(e.code, e.message)
  {
    assert [e][..0] == [];
    assert V2Lines([e]) == V2Line(e);
    AppendAssociative(V2Header, "\n- ", ApiMessage(e.code, e.message));
  }

  /**
   * `buildMessage` as written: it reads each code back through `getStatusCode().toInt()`,
   * and `getStatusCode()` is null for a code outside the table, so the constructor throws.
   */
  function V2MessageAsWritten(errors: seq<ApiError>): (r: Result<string, Error>)
    ensures r.Failure? ==> r.error == Thrown(NullFault)
  {
    if errors == [] then Success(V2Header)
    else
      match V2MessageAsWritten(errors[..|errors| - 1])
      case Failure(e) => Failure(e)
      case Success(m) =>
        var last := errors[|errors| - 1];
        match FromInt(last.code)
        case None => Failure(Thrown(NullFault))
        case Some(s) => Success(m + ("\n- " + ApiMessage(Code(s), last.message)))
  }

  lemma V2MessageAsWrittenStep(errors: seq<ApiError>)
    requires errors != []
    ensures V2MessageAsWritten(errors).Failure? <==>
      V2MessageAsWritten(errors[..|errors| - 1]).Failure? || FromInt(errors[|errors| - 1].code).None?
  {
  }

  /** As written, building the message throws exactly when some code is outside the table. */
  lemma {:induction false} V2MessageAsWrittenThrowsIff(errors: seq<ApiError>)
    ensures V2MessageAsWritten(errors).Failure? <==> exists i :: 0 <= i < |errors| && FromInt(errors[i].code).None?
  {
    if errors != [] {
      var init, last := errors[..|errors| - 1], errors[|errors| - 1];
      V2MessageAsWrittenThrowsIff(init);
      V2MessageAsWrittenStep(errors);
      if exists i :: 0 <= i < |errors| && FromInt(errors[i].code).None? {
        var i :| 0 <= i < |errors| && FromInt(errors[i].code).None?;
        if i < |init| {
          assert init[i] == errors[i];
        }
      } else {
        forall i | 0 <= i < |init|
          ensures FromInt(init[i].code).Some?
        {
          assert init[i] == errors[i];
        }
      }
    }
  }

  /** When it does not throw, the message built as written is the intended one. */
  lemma {:induction false} V2MessageAsWrittenAgrees(errors: seq<ApiError>)
    ensures V2MessageAsWritten(errors).Success? ==> V2MessageAsWritten(errors).value == V2Message(errors)
  {
    if errors != [] && V2MessageAsWritten(errors).Success? {
      var init, last := errors[..|errors| - 1], errors[|errors| - 1];
      V2MessageAsWrittenAgrees(init);
      var s := FromInt(last.code).value;
      FromIntSpec(last.code);
      assert V2Line(last) == "\n- " + ApiMessage(Code(s), last.message);
      AppendAssociative(V2Header, V2Lines(init), V2Line(last));
    }
  }

  /** The input that shows it: one error with the unlisted code 3006 makes the constructor throw. */
  lemma V2MessageAsWrittenThrows()
    ensures V2MessageAsWritten([ApiError(3006, "bad")]) == Failure(Thrown(NullFault))
    ensures V2Message([ApiError(3006, "bad")]) == V2Header + "\n- 3006: bad"
  {
    UnlistedCodes();
    assert [ApiError(3006, "bad")][..0] == [];
  }

  // ---------------------------------------------------------------------------
  // ApiError.fromJson / listFromJson

  /** `fromJson`: an object with an integral `code`; a missing or null `message` reads as empty. */
  function ApiErrorFromJson(item: Json): (r: Result<ApiError, Error>)
    ensures r.Failure? ==> r.error == Thrown(JsonFault)
  {
    if !item.JObj? then Failure(Thrown(JsonFault))
    else
      match GetInt(item.fields, "code")
      case None => Failure(Thrown(JsonFault))
      case Some(code) => Success(ApiError(code, OptString(item.fields, "message", Some("")).value))
  }

  /** `listFromJson`: one error per array element, in order; the first bad element throws. */
  method ApiErrorList(items: seq<Json>) returns (r: Result<seq<ApiError>, Error>)
    ensures r == MapAll(items, ApiErrorFromJson)
  {
    r := CollectAll(items, ApiErrorFromJson);
  }

  /**
   * The list decodes exactly when every element is an object with an integral code, and then
   * the i-th error has that element's code, wrapped to 32 bits, and its message.
   */
  lemma ApiErrorListSpec(items: seq<Json>)
    ensures MapAll(items, ApiErrorFromJson).Success? <==>
      forall i :: 0 <= i < |items| ==> items[i].JObj? && "code" in items[i].fields && items[i].fields["code"].JNum?
    ensures MapAll(items, ApiErrorFromJson).Success? ==>
      forall i :: 0 <= i < |items| ==>
        MapAll(items, ApiErrorFromJson).value[i] ==
          ApiError(Int32Of(items[i].fields["code"].n), OptString(items[i].fields, "message", Some("")).value)
    ensures MapAll(items, ApiErrorFromJson).Failure? ==> MapAll(items, ApiErrorFromJson).error == Thrown(JsonFault)
  {
    MapAllFailsIff(items, ApiErrorFromJson);
  }
}
