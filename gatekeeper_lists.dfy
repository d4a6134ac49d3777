/**
 * The Gatekeeper list requests: GETs whose `send()` turns each entry of `results` into a record,
 * in order, refusing an entry that is not an object with a `ParsingException` that names the
 * kind of record and shows the entry.
 */
module GatekeeperLists {
  import opened Wrappers
  import opened JsonData
  import opened Errors
  import opened Sequences
  import opened Http
  import opened ApiClient
  import opened Responses
  import opened Requests
  import opened GatekeeperRecords

  const PoliciesPath := "/v1/gatekeeper/policies"
  const VisitorGroupsPath := "/v1/gatekeeper/visitor-groups"
  const PageGroupsPath := "/v1/gatekeeper/page-groups"

  const InvalidPolicy := "Invalid policy encountered"
  const InvalidVisitorGroup := "Invalid visitor group encountered"
  const InvalidPageGroup := "Invalid page group encountered"

  /** One pass of a `send()` loop: `optJSONObject(i)`, a null result refused with `message`, else decoded. */
  function Decoded<T>(message: string, decode: Object -> Result<T, Error>): Json -> Result<T, Error>
  {
    (item: Json) => if item.JObj? then decode(item.fields) else Failure(Parsing(Says(message), Text(item)))
  }

  /** What `send()` makes of the client's answer: `getResults()`, then one record per entry. */
  function ListOf<T>(response: Result<ApiResponse, Error>, message: string, decode: Object -> Result<T, Error>)
    : (r: Result<seq<T>, Error>)
  {
    match response
    case Failure(e) => Failure(e)
    case Success(answer) =>
      match Results(answer.body)
      case Failure(e) => Failure(e)
      case Success(items) => MapAll(items, Decoded(message, decode))
  }

  /**
   * A missing `results` is refused; otherwise the list is read exactly when every entry is an
   * object that decodes, and then holds one record per entry in the same order, none for an
   * empty `results`.
   */
  lemma ListOfSpec<T>(answer: ApiResponse, message: string, decode: Object -> Result<T, Error>)
    ensures Results(answer.body).Failure? ==> ListOf(Success(answer), message, decode) == Failure(Results(answer.body).error)
    ensures Results(answer.body).Success? ==>
      (ListOf(Success(answer), message, decode).Success? <==>
        forall i :: 0 <= i < |answer.body["results"].items| ==>
          answer.body["results"].items[i].JObj? && decode(answer.body["results"].items[i].fields).Success?)
    ensures Results(answer.body).Success? && ListOf(Success(answer), message, decode).Success? ==>
      |ListOf(Success(answer), message, decode).value| == |answer.body["results"].items| &&
      forall i :: 0 <= i < |answer.body["results"].items| ==>
        Success(ListOf(Success(answer), message, decode).value[i]) == decode(answer.body["results"].items[i].fields)
    ensures Results(answer.body) == Success([]) ==> ListOf(Success(answer), message, decode) == Success([])
  {
    if Results(answer.body).Success? {
      var items := answer.body["results"].items;
      var f := Decoded(message, decode);
      MapAllFailsIff(items, f);
      assert forall i :: 0 <= i < |items| ==> (f(items[i]).Success? <==> items[i].JObj? && decode(items[i].fields).Success?);
    }
  }

  /**
   * The first bad entry decides the error: one that is not an object is refused with `message`
   * and the entry as source; an object whose record cannot be read passes on that record's error.
   */
  lemma ListOfFirstBad<T>(answer: ApiResponse, message: string, decode: Object -> Result<T, Error>, i: nat)
    requires Results(answer.body).Success? && i < |answer.body["results"].items|
    requires forall j :: 0 <= j < i ==>
      answer.body["results"].items[j].JObj? && decode(answer.body["results"].items[j].fields).Success?
    ensures !answer.body["results"].items[i].JObj? ==>
      ListOf(Success(answer), message, decode) == Failure(Parsing(Says(message), Text(answer.body["results"].items[i])))
    ensures answer.body["results"].items[i].JObj? && decode(answer.body["results"].items[i].fields).Failure? ==>
      ListOf(Success(answer), message, decode) == Failure(decode(answer.body["results"].items[i].fields).error)
  {
    var items := answer.body["results"].items;
    var f := Decoded(message, decode);
    assert forall j :: 0 <= j < i ==> f(items[j]).Success?;
    if f(items[i]).Failure? {
      MapAllFirstFailure(items, f, i);
    }
  }

  /** The policies' error for a non-object entry is a parsing exception with a fixed message. */
  lemma InvalidPolicyMessage(answer: ApiResponse, i: nat)
    requires Results(answer.body).Success? && i < |answer.body["results"].items|
    requires forall j :: 0 <= j < i ==>
      answer.body["results"].items[j].JObj? && PolicyOf(answer.body["results"].items[j].fields).Success?
    requires !answer.body["results"].items[i].JObj?
    ensures Message(ListOf(Success(answer), InvalidPolicy, PolicyOf).error) ==
      Some("Invalid policy encountered source = " + Text(answer.body["results"].items[i]))
  {
    ListOfFirstBad(answer, InvalidPolicy, PolicyOf, i);
    assert InvalidPolicy + " source = " == "Invalid policy encountered source = ";
  }

  class GetPoliciesRequest {
    const request: ApiRequest

    ghost predicate Valid()
      reads this, request, request.params
    {
      request.Valid() && request.verb == Get
    }

    constructor (client: NetToolKitClient)
      ensures Valid() && fresh(request) && fresh(request.params) && request.client == client
      ensures request.params.values == map[]
    {
      request := new ApiRequest(client, Get);
    }

    /** `send()`: a GET to the policies path, then one policy per result, in order. */
    method Send(transport: HttpRequest -> Option<string>, parse: string -> Option<Json>) returns (r: Result<seq<Policy>, Error>)
      requires Valid()
      ensures r == ListOf(Exchange(transport, parse, request.Spec(PoliciesPath)), InvalidPolicy, PolicyOf)
    {
      var response := request.Send(transport, parse, PoliciesPath);
      if response.Failure? {
        return Failure(response.error);
      }
      var results := Results(response.value.body);
      if results.Failure? {
        return Failure(results.error);
      }
      r := CollectAll(results.value, Decoded(InvalidPolicy, PolicyOf));
    }
  }

  class GetVisitorGroupsRequest {
    const request: ApiRequest

    ghost predicate Valid()
      reads this, request, request.params
    {
      request.Valid() && request.verb == Get
    }

    constructor (client: NetToolKitClient)
      ensures Valid() && fresh(request) && fresh(request.params) && request.client == client
      ensures request.params.values == map[]
    {
      request := new ApiRequest(client, Get);
    }

    /** `send()`: a GET to the visitor groups path, then one visitor group per result, in order. */
    method Send(transport: HttpRequest -> Option<string>, parse: string -> Option<Json>) returns (r: Result<seq<VisitorGroup>, Error>)
      requires Valid()
      ensures r == ListOf(Exchange(transport, parse, request.Spec(VisitorGroupsPath)), InvalidVisitorGroup, VisitorGroupOf)
    {
      var response := request.Send(transport, parse, VisitorGroupsPath);
      if response.Failure? {
        return Failure(response.error);
      }
      var results := Results(response.value.body);
      if results.Failure? {
        return Failure(results.error);
      }
      r := CollectAll(results.value, Decoded(InvalidVisitorGroup, VisitorGroupOf));
    }
  }

  class GetPageGroupsRequest {
    const request: ApiRequest

    ghost predicate Valid()
      reads this, request, request.params
    {
      request.Valid() && request.verb == Get
    }

    constructor (client: NetToolKitClient)
      ensures Valid() && fresh(request) && fresh(request.params) && request.client == client
      ensures request.params.values == map[]
    {
      request := new ApiRequest(client, Get);
    }

    /** `send()`: a GET to the page groups path, then one page group per result, in order. */
    method Send(transport: HttpRequest -> Option<string>, parse: string -> Option<Json>) returns (r: Result<seq<PageGroup>, Error>)
      requires Valid()
      ensures r == ListOf(Exchange(transport, parse, request.Spec(PageGroupsPath)), InvalidPageGroup, PageGroupOf)
    {
      var response := request.Send(transport, parse, PageGroupsPath);
      if response.Failure? {
        return Failure(response.error);
      }
      var results := Results(response.value.body);
      if results.Failure? {
        return Failure(results.error);
      }
      r := CollectAll(results.value, Decoded(InvalidPageGroup, PageGroupOf));
    }
  }
}
