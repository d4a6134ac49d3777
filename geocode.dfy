/**
 * `Geocode`, one candidate location for an address, and `GeocodeRequest`, the GET that asks
 * the geocoder for them.
 */
module Geocoding {
  import opened Wrappers
  import opened JavaText
  import opened JsonData
  import opened Sequences
  import opened ParameterBag
  import opened Errors
  import opened Http
  import opened ApiClient
  import opened Responses
  import opened Requests
  import P = GeoProvider
  import Q = GeoPrecision

  /** A geocode: absent text fields are null, the coordinates are null when absent. */
  datatype Geocode = Geocode(
    address: Option<string>,
    houseNumber: Option<string>,
    street: Option<string>,
    streetName: Option<string>,
    streetNumber: Option<string>,
    streetType: Option<string>,
    city: Option<string>,
    postalCode: Option<string>,
    county: Option<string>,
    state: Option<string>,
    stateCode: Option<string>,
    country: Option<string>,
    countryCode: Option<string>,
    provider: P.Provider,
    precision: Q.Precision,
    latitude: Option<Float64>,
    longitude: Option<Float64>,
    original: Object)

  /**
   * `getDouble(key)` on a member that is a number; anything else is a `JSONException`. An
   * integral number becomes the `double` of the same value, which prints with a `.0`.
   */
  function DoubleOf(v: Json): (r: Option<Float64>)
    ensures r.Some? <==> v.JNum? || v.JFloat?
    ensures v.JFloat? ==> r == Some(v.f)
  {
    match v
    case JNum(n) => Some(Float64(IntText(n) + ".0"))
    case JFloat(f) => Some(f)
    case _ => None
  }

  /** `has(key) ? getDouble(key) : null`. */
  function Coordinate(o: Object, key: string): (r: Result<Option<Float64>, Error>)
    ensures r.Success? <==> key !in o || o[key].JNum? || o[key].JFloat?
    ensures r.Success? ==> (r.value.None? <==> key !in o)
    ensures r.Failure? ==> r.error == Thrown(JsonFault)
  {
    if !Has(o, key) then Success(None)
    else match DoubleOf(o[key])
      case None => Failure(Thrown(JsonFault))
      case Some(d) => Success(Some(d))
  }

  /** `Geocode.fromJson`: a JSON null or absent member is a null field, provider and precision go through `fromString`. */
  function FromJson(o: Object): (r: Result<Geocode, Error>)
    ensures r.Success? <==> Coordinate(o, "latitude").Success? && Coordinate(o, "longitude").Success?
    ensures r.Failure? ==> r.error == Thrown(JsonFault)
    ensures r.Success? ==> r.value.original == o
  {
    var latitude :- Coordinate(o, "latitude");
    var longitude :- Coordinate(o, "longitude");
    Success(Geocode(
      OptString(o, "address", None),
      OptString(o, "house_number", None),
      OptString(o, "street", None),
      OptString(o, "street_name", None),
      OptString(o, "street_number", None),
      OptString(o, "street_type", None),
      OptString(o, "city", None),
      OptString(o, "postal_code", None),
      OptString(o, "county", None),
      OptString(o, "state", None),
      OptString(o, "state_code", None),
      OptString(o, "country", None),
      OptString(o, "country_code", None),
      P.FromString(OptString(o, "provider", None)),
      Q.FromString(OptString(o, "precision", None)),
      latitude,
      longitude,
      o))
  }

  /** The JSON keys of the text fields, in the order they are declared. */
  const TextKeys := ["address", "house_number", "street", "street_name", "street_number", "street_type",
    "city", "postal_code", "county", "state", "state_code", "country", "country_code"]

  /** The text fields, in the order of their keys. */
  function TextFields(g: Geocode): (r: seq<Option<string>>)
    ensures |r| == |TextKeys|
  {
    [g.address, g.houseNumber, g.street, g.streetName, g.streetNumber, g.streetType,
     g.city, g.postalCode, g.county, g.state, g.stateCode, g.country, g.countryCode]
  }

  /** Each text field is null exactly when its member is absent or JSON null, and otherwise the member's text. */
  lemma FromJsonTextFields(o: Object)
    requires FromJson(o).Success?
    ensures forall i :: 0 <= i < |TextKeys| ==> (TextFields(FromJson(o).value)[i].None? <==> IsNull(o, TextKeys[i]))
    ensures forall i :: 0 <= i < |TextKeys| && !IsNull(o, TextKeys[i]) ==>
      TextFields(FromJson(o).value)[i] == Some(Text(o[TextKeys[i]]))
  {
    var fields := TextFields(FromJson(o).value);
    assert forall i :: 0 <= i < |TextKeys| ==> fields[i] == OptString(o, TextKeys[i], None);
  }

  /**
   * The coordinates are null exactly when their members are absent, and provider and precision
   * are never null: `UNKNOWN` when their members are absent.
   */
  lemma FromJsonDefaults(o: Object)
    requires FromJson(o).Success?
    ensures FromJson(o).value.latitude.None? <==> "latitude" !in o
    ensures FromJson(o).value.longitude.None? <==> "longitude" !in o
    ensures "provider" !in o ==> FromJson(o).value.provider == P.UNKNOWN
    ensures "precision" !in o ==> FromJson(o).value.precision == Q.UNKNOWN
  {
  }

  /** A geocode is refused exactly when a coordinate is present but not a number. */
  lemma FromJsonFailsIff(o: Object)
    ensures FromJson(o).Failure? <==>
      ("latitude" in o && !o["latitude"].JNum? && !o["latitude"].JFloat?) ||
      ("longitude" in o && !o["longitude"].JNum? && !o["longitude"].JFloat?)
  {
  }

  /** `getLatitude()`: unboxing a null latitude throws a `NullPointerException`. */
  function Latitude(g: Geocode): (r: Result<Float64, Error>)
    ensures r.Success? <==> g.latitude.Some?
    ensures r.Failure? ==> r.error == Thrown(NullFault)
  {
    if g.latitude.Some? then Success(g.latitude.value) else Failure(Thrown(NullFault))
  }

  /** `getLongitude()`. */
  function Longitude(g: Geocode): (r: Result<Float64, Error>)
    ensures r.Success? <==> g.longitude.Some?
    ensures r.Failure? ==> r.error == Thrown(NullFault)
  {
    if g.longitude.Some? then Success(g.longitude.value) else Failure(Thrown(NullFault))
  }

  /**
   * On a decoded geocode, `getLatitude()`/`getLongitude()` throw exactly when the response had no
   * such member, and otherwise give the member's number as a `double`.
   */
  lemma CoordinatesReadBack(o: Object)
    requires FromJson(o).Success?
    ensures Latitude(FromJson(o).value).Failure? <==> "latitude" !in o
    ensures Longitude(FromJson(o).value).Failure? <==> "longitude" !in o
    ensures "latitude" in o ==> Latitude(FromJson(o).value) == Success(DoubleOf(o["latitude"]).value)
    ensures "longitude" in o ==> Longitude(FromJson(o).value) == Success(DoubleOf(o["longitude"]).value)
    ensures "latitude" in o && o["latitude"].JFloat? ==> Latitude(FromJson(o).value) == Success(o["latitude"].f)
    ensures "longitude" in o && o["longitude"].JFloat? ==> Longitude(FromJson(o).value) == Success(o["longitude"].f)
  {
  }

  // ---------------------------------------------------------------------------
  // toString

  /** The fields `toString` considers, in its order, each with its text or null. */
  function Listed(g: Geocode): seq<(string, Option<string>)>
  {
    [("address", g.address), ("house_number", g.houseNumber), ("street", g.street),
     ("street_name", g.streetName), ("street_number", g.streetNumber), ("street_type", g.streetType),
     ("city", g.city), ("postal_code", g.postalCode), ("county", g.county), ("state", g.state),
     ("state_code", g.stateCode), ("provider", Some(P.StringValue(g.provider))),
     ("precision", Some(Q.StringValue(g.precision))),
     ("latitude", if g.latitude.Some? then Some(g.latitude.value.text) else None),
     ("longitude", if g.longitude.Some? then Some(g.longitude.value.text) else None)]
  }

  /** The `key=value` tokens of the fields that are not null, in order. */
  function Tokens(fields: seq<(string, Option<string>)>): (r: seq<string>)
    ensures |r| <= |fields|
  {
    if fields == [] then []
    else
      var rest := Tokens(fields[..|fields| - 1]);
      var last := fields[|fields| - 1];
      if last.1.Some? then rest + [last.0 + "=" + last.1.value] else rest
  }

  /** `toString()`. */
  function ToText(g: Geocode): (r: string)
  {
    "Geocode{" + Join(", ", Tokens(Listed(g))) + "}"
  }

  /** A field with a value has its token, and every token comes from a field with a value. */
  lemma {:induction false} TokensIff(fields: seq<(string, Option<string>)>, t: string)
    ensures t in Tokens(fields) <==>
      exists i :: 0 <= i < |fields| && fields[i].1.Some? && fields[i].0 + "=" + fields[i].1.value == t
  {
    if fields != [] {
      var init := fields[..|fields| - 1];
      TokensIff(init, t);
      assert forall i :: 0 <= i < |init| ==> init[i] == fields[i];
    }
  }

  /** The provider and precision are always shown, and the country fields never. */
  lemma ToTextShowsProviderNotCountry(g: Geocode, country: Option<string>, countryCode: Option<string>)
    ensures ("provider=" + P.StringValue(g.provider)) in Tokens(Listed(g))
    ensures ("precision=" + Q.StringValue(g.precision)) in Tokens(Listed(g))
    ensures ToText(g.(country := country, countryCode := countryCode)) == ToText(g)
  {
    var fields := Listed(g);
    assert "provider" + "=" == "provider=" && "precision" + "=" == "precision=";
    AppendAssociative("provider", "=", P.StringValue(g.provider));
    AppendAssociative("precision", "=", Q.StringValue(g.precision));
    assert fields[11].1.Some? && fields[11].0 + "=" + fields[11].1.value == "provider=" + P.StringValue(g.provider);
    TokensIff(fields, "provider=" + P.StringValue(g.provider));
    assert fields[12].1.Some? && fields[12].0 + "=" + fields[12].1.value == "precision=" + Q.StringValue(g.precision);
    TokensIff(fields, "precision=" + Q.StringValue(g.precision));
    assert Listed(g.(country := country, countryCode := countryCode)) == fields;
  }

  // ---------------------------------------------------------------------------
  // GeocodeRequest

  const GeocodesPath := "/v1/geo/geocodes"

  /** The query setters: `address`, `city`, `state`, `street`, `zip` and `countryCode`. */
  datatype QueryField = Address | City | State | Street | Zip | CountryCode

  function QueryKey(f: QueryField): string
  {
    match f
    case Address => "address"
    case City => "city"
    case State => "state"
    case Street => "street"
    case Zip => "zip"
    case CountryCode => "country_code"
  }

  /** One `results` entry: an object is decoded, anything else is a `ParsingException` about that entry. */
  function GeocodeItem(item: Json): (r: Result<Geocode, Error>)
    ensures !item.JObj? ==> r == Failure(Parsing(FromCause(JsonFault), Text(item)))
    ensures item.JObj? && FromJson(item.fields).Failure? ==> r == Failure(Parsing(FromCause(JsonFault), Text(item)))
    ensures item.JObj? && FromJson(item.fields).Success? ==> r == FromJson(item.fields)
  {
    if !item.JObj? then Failure(Parsing(FromCause(JsonFault), Text(item)))
    else match FromJson(item.fields)
      case Failure(_) => Failure(Parsing(FromCause(JsonFault), Text(item)))
      case Success(g) => Success(g)
  }

  /** What `send()` makes of the client's answer: one geocode per result, in order. */
  function GeocodesOf(response: Result<ApiResponse, Error>): (r: Result<seq<Geocode>, Error>)
  {
    match response
    case Failure(e) => Failure(e)
    case Success(answer) =>
      match Results(answer.body)
      case Failure(e) => Failure(e)
      case Success(items) => MapAll(items, GeocodeItem)
  }

  /**
   * Decoding succeeds exactly when every result is an object with numeric coordinates, and then
   * gives one geocode per result in the same order; otherwise the first bad result is reported.
   */
  lemma GeocodesOfResults(answer: ApiResponse, items: seq<Json>)
    requires Results(answer.body) == Success(items)
    ensures GeocodesOf(Success(answer)).Success? <==>
      forall i :: 0 <= i < |items| ==> items[i].JObj? && FromJson(items[i].fields).Success?
    ensures GeocodesOf(Success(answer)).Success? ==>
      |GeocodesOf(Success(answer)).value| == |items| &&
      forall i :: 0 <= i < |items| ==> Success(GeocodesOf(Success(answer)).value[i]) == FromJson(items[i].fields)
    ensures GeocodesOf(Success(answer)).Failure? ==>
      exists i :: 0 <= i < |items| && GeocodesOf(Success(answer)).error == Parsing(FromCause(JsonFault), Text(items[i]))
  {
    MapAllFailsIff(items, GeocodeItem);
  }

  class GeocodeRequest {
    const request: ApiRequest

    ghost predicate Valid()
      reads this, request, request.params
    {
      request.Valid() && request.verb == Get
    }

    constructor (client: NetToolKitClient)
      ensures Valid() && fresh(request) && fresh(request.params) && request.client == client
      ensures request.params.values == map[]
    {
      request := new ApiRequest(client, Get);
    }

    /** One of the text setters: the value, or null, under the field's key. */
    method SetField(f: QueryField, value: Option<string>)
      requires Valid()
      modifies request.params
      ensures Valid()
      ensures request.params.values == old(request.params.values)[QueryKey(f) := TextValue(value)]
      ensures request.params.order == OrderAfterPut(old(request.params.order), old(request.params.values), QueryKey(f))
    {
      request.params.Put(QueryKey(f), TextValue(value));
    }

    /** `provider(p)`: its string value; a null provider throws before the bag changes. */
    method SetProvider(p: Option<P.Provider>) returns (r: Result<(), Error>)
      requires Valid()
      modifies request.params
      ensures Valid()
      ensures p.None? ==> r == Failure(Thrown(NullFault)) && unchanged(request.params)
      ensures p.Some? ==> r.Success? && request.params.values == old(request.params.values)["provider" := VStr(P.StringValue(p.value))]
    {
      if p.None? {
        return Failure(Thrown(NullFault));
      }
      request.params.Put("provider", VStr(P.StringValue(p.value)));
      r := Success(());
    }

    /** `send()`: a GET to the geocodes path, then one geocode per result. */
    method Send(transport: HttpRequest -> Option<string>, parse: string -> Option<Json>) returns (r: Result<seq<Geocode>, Error>)
      requires Valid()
      ensures r == GeocodesOf(Exchange(transport, parse, request.Spec(GeocodesPath)))
    {
      var response := request.Send(transport, parse, GeocodesPath);
      if response.Failure? {
        return Failure(response.error);
      }
      var results := Results(response.value.body);
      if results.Failure? {
        return Failure(results.error);
      }
      r := CollectAll(results.value, GeocodeItem);
    }
  }
}
