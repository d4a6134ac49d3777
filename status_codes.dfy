/**
 * The web API's status codes: a fixed table of numeric code, description and HTTP status,
 * and the lookup from a number back to its entry.
 */
module StatusCodes {
  import opened Wrappers

  datatype StatusCode =
    // 1000 - 1999: success
    | Ok | Understood
    // 2000 - 2999: server error
    | InternalError | UnknownError | ConnectionTimeout | ServiceTimeout | GeocodeServerBusy
    | ServiceUnavailable | BadGateway
    // 3000 - 3999: client meta error
    | NotPermitted | InsufficientCredits | InvalidCredentials | OverQuota | AccountDatabaseRequired
    | ValidationRequired | TooManyRequests | PaymentFailure | MissingPaymentMethod | InvalidPaymentMethod
    // 4000 - 4999: client request error
    | BadRequest | InvalidParameter | MissingParameter
    // 5000 - 5999: resource error
    | NotFound | ResourceDependencyError | Conflict | ResourceExpired | UnknownRoute

  /** `toInt()`. */
  function Code(s: StatusCode): int
  {
    match s
    case Ok => 1000
    case Understood => 1001
    case InternalError => 2000
    case UnknownError => 2001
    case ConnectionTimeout => 2002
    case ServiceTimeout => 2003
    case GeocodeServerBusy => 2004
    case ServiceUnavailable => 2005
    case BadGateway => 2006
    case NotPermitted => 3000
    case InsufficientCredits => 3001
    case InvalidCredentials => 3002
    case OverQuota => 3003
    case AccountDatabaseRequired => 3004
    case ValidationRequired => 3005
    case TooManyRequests => 3007
    case PaymentFailure => 3400
    case MissingPaymentMethod => 3401
    case InvalidPaymentMethod => 3402
    case BadRequest => 4000
    case InvalidParameter => 4001
    case MissingParameter => 4002
    case NotFound => 5000
    case ResourceDependencyError => 5001
    case Conflict => 5002
    case ResourceExpired => 5003
    case UnknownRoute => 5500
  }

  /** `getDescription()`. */
  function Description(s: StatusCode): string
  {
    match s
    case Ok => "Request OK"
    case Understood => "Request understood, but not completed"
    case InternalError => "Something unexpected went wrong"
    case UnknownError => "Error with unclear cause"
    case ConnectionTimeout => "Connection to external service timed out"
    case ServiceTimeout => "Connection to internal service timed out"
    case GeocodeServerBusy => "Geocode server is busy"
    case ServiceUnavailable => "Service is temporarily unavailable"
    case BadGateway => "Got an invalid response from a remote host"
    case NotPermitted => "Request not permitted"
    case InsufficientCredits => "Not enough credits to complete request"
    case InvalidCredentials => "Invalid credentials for request"
    case OverQuota => "Over request quota for resource"
    case AccountDatabaseRequired => "Account does not have an associated database"
    case ValidationRequired => "User must be validated before continuing"
    case TooManyRequests => "The client is making too many requests"
    case PaymentFailure => "Payment was not accepted"
    case MissingPaymentMethod => "The account needs a payment method to process this request"
    case InvalidPaymentMethod => "The account payment method cannot be used to create charges"
    case BadRequest => "Invalid request"
    case InvalidParameter => "Invalid parameter encountered in request"
    case MissingParameter => "Request missing required parameter"
    case NotFound => "No results found"
    case ResourceDependencyError => "Another resource depends on requested resource"
    case Conflict => "Resource conflict encountered"
    case ResourceExpired => "Resource has expired"
    case UnknownRoute => "No matching route found"
  }

  /** `getHttpStatusCode()`. */
  function HttpStatus(s: StatusCode): int
  {
    match s
    case Ok | Understood => 200
    case InternalError | UnknownError => 500
    case ConnectionTimeout | ServiceTimeout => 408
    case GeocodeServerBusy | ServiceUnavailable => 503
    case BadGateway => 502
    case NotPermitted => 403
    case InsufficientCredits => 400
    case InvalidCredentials => 401
    case OverQuota | AccountDatabaseRequired | ValidationRequired => 403
    case TooManyRequests => 429
    case PaymentFailure | MissingPaymentMethod | InvalidPaymentMethod => 403
    case BadRequest | InvalidParameter | MissingParameter => 400
    case NotFound => 404
    case ResourceDependencyError | Conflict => 409
    case ResourceExpired | UnknownRoute => 404
  }

  /** `name()`: the constant's declared name. */
  function Name(s: StatusCode): string
  {
    match s
    case Ok => "OK"
    case Understood => "UNDERSTOOD"
    case InternalError => "INTERNAL_ERROR"
    case UnknownError => "UNKNOWN_ERROR"
    case ConnectionTimeout => "CONNECTION_TIMEOUT"
    case ServiceTimeout => "SERVICE_TIMEOUT"
    case GeocodeServerBusy => "GEOCODE_SERVER_BUSY"
    case ServiceUnavailable => "SERVICE_UNAVAILABLE"
    case BadGateway => "BAD_GATEWAY"
    case NotPermitted => "NOT_PERMITTED"
    case InsufficientCredits => "INSUFFICIENT_CREDITS"
    case InvalidCredentials => "INVALID_CREDENTIALS"
    case OverQuota => "OVER_QUOTA"
    case AccountDatabaseRequired => "ACCOUNT_DATABASE_REQUIRED"
    case ValidationRequired => "VALIDATION_REQUIRED"
    case TooManyRequests => "TOO_MANY_REQUESTS"
    case PaymentFailure => "PAYMENT_FAILURE"
    case MissingPaymentMethod => "MISSING_PAYMENT_METHOD"
    case InvalidPaymentMethod => "INVALID_PAYMENT_METHOD"
    case BadRequest => "BAD_REQUEST"
    case InvalidParameter => "INVALID_PARAMETER"
    case MissingParameter => "MISSING_PARAMETER"
    case NotFound => "NOT_FOUND"
    case ResourceDependencyError => "RESOURCE_DEPENDENCY_ERROR"
    case Conflict => "CONFLICT"
    case ResourceExpired => "RESOURCE_EXPIRED"
    case UnknownRoute => "UNKNOWN_ROUTE"
  }

  /** `values()`: every constant, in declaration order. */
  function Values(): seq<StatusCode>
  {
    [Ok, Understood,
     InternalError, UnknownError, ConnectionTimeout, ServiceTimeout, GeocodeServerBusy, ServiceUnavailable, BadGateway,
     NotPermitted, InsufficientCredits, InvalidCredentials, OverQuota, AccountDatabaseRequired, ValidationRequired,
     TooManyRequests, PaymentFailure, MissingPaymentMethod, InvalidPaymentMethod,
     BadRequest, InvalidParameter, MissingParameter,
     NotFound, ResourceDependencyError, Conflict, ResourceExpired, UnknownRoute]
  }

  lemma ValuesComplete(s: StatusCode)
    ensures s in Values()
  {
  }

  /** The lookup map the static initialiser fills: each constant put under its code, in order. */
  function TableOf(vs: seq<StatusCode>): map<int, StatusCode>
  {
    if vs == [] then map[] else TableOf(vs[..|vs| - 1])[Code(vs[|vs| - 1]) := vs[|vs| - 1]]
  }

  /** A number is in the map exactly when some listed constant has it, and it maps to such a constant. */
  lemma {:induction false} TableOfContents(vs: seq<StatusCode>, code: int)
    ensures code in TableOf(vs) <==> exists s :: s in vs && Code(s) == code
    ensures code in TableOf(vs) ==> TableOf(vs)[code] in vs && Code(TableOf(vs)[code]) == code
  {
    if vs != [] {
      var init, last := vs[..|vs| - 1], vs[|vs| - 1];
      TableOfContents(init, code);
      assert vs == init + [last];
      if code != Code(last) && exists s :: s in vs && Code(s) == code {
        var s :| s in vs && Code(s) == code;
        assert s in init;
      }
    }
  }

  /** `fromInt`: the constant with this code, or null when there is none. */
  function FromInt(code: int): Option<StatusCode>
  {
    var table := TableOf(Values());
    if code in table then Some(table[code]) else None
  }

  /** No two constants share a code. */
  lemma CodesDistinct(s: StatusCode, t: StatusCode)
    requires Code(s) == Code(t)
    ensures s == t
  {
  }

  /** `fromInt` finds a constant exactly when one has the code, and then it finds that one. */
  lemma FromIntSpec(code: int)
    ensures FromInt(code).Some? <==> exists s :: Code(s) == code
    ensures FromInt(code).Some? ==> Code(FromInt(code).value) == code
  {
    TableOfContents(Values(), code);
    if exists s :: Code(s) == code {
      var s :| Code(s) == code;
      ValuesComplete(s);
    }
  }

  /** `fromInt(c.toInt()) == c` for every constant. */
  lemma FromIntRoundTrip(s: StatusCode)
    ensures FromInt(Code(s)) == Some(s)
  {
    FromIntSpec(Code(s));
    CodesDistinct(FromInt(Code(s)).value, s);
  }

  /** A code outside the table gives null, not a fallback constant; 3006 and 9999 are two such codes. */
  lemma FromIntUnknown(code: int)
    requires forall s: StatusCode :: Code(s) != code
    ensures FromInt(code) == None
  {
    FromIntSpec(code);
  }

  lemma UnlistedCodes()
    ensures FromInt(3006) == None && FromInt(9999) == None
  {
    forall s: StatusCode
      ensures Code(s) != 3006 && Code(s) != 9999
    {
    }
    FromIntUnknown(3006);
    FromIntUnknown(9999);
  }

  /** The constants below 2000 are exactly those answered with HTTP 200. */
  lemma SuccessIffHttpOk(s: StatusCode)
    ensures Code(s) < 2000 <==> HttpStatus(s) == 200
  {
  }

  /** Every error constant is answered with a 4xx or 5xx HTTP status. */
  lemma ErrorsHaveErrorStatus(s: StatusCode)
    ensures Code(s) >= 2000 ==> 400 <= HttpStatus(s) <= 599
  {
  }

  /** The groups the table is declared in. */
  datatype Band = SuccessBand | ServerError | ClientMetaError | ClientRequestError | ResourceError

  function BandOf(s: StatusCode): Band
  {
    match s
    case Ok | Understood => SuccessBand
    case InternalError | UnknownError | ConnectionTimeout | ServiceTimeout | GeocodeServerBusy
      | ServiceUnavailable | BadGateway => ServerError
    case NotPermitted | InsufficientCredits | InvalidCredentials | OverQuota | AccountDatabaseRequired
      | ValidationRequired | TooManyRequests | PaymentFailure | MissingPaymentMethod | InvalidPaymentMethod => ClientMetaError
    case BadRequest | InvalidParameter | MissingParameter => ClientRequestError
    case NotFound | ResourceDependencyError | Conflict | ResourceExpired | UnknownRoute => ResourceError
  }

  /** The thousands digit a group's codes start with. */
  function Thousands(b: Band): int
  {
    match b
    case SuccessBand => 1
    case ServerError => 2
    case ClientMetaError => 3
    case ClientRequestError => 4
    case ResourceError => 5
  }

  /** Each code lies in the thousand its group is declared for. */
  lemma CodeInBand(s: StatusCode)
    ensures 1000 * Thousands(BandOf(s)) <= Code(s) < 1000 * (Thousands(BandOf(s)) + 1)
  {
  }
}
