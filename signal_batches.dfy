/**
 * `CreateMetricsRequest` and `CreateLogsRequest`: JSON POSTs to the version 2 dashboards API
 * that collect gauges or log records in a list, in the order they are added, and serialise the
 * whole list into the parameter bag when sent. How a gauge or a log record becomes JSON is the
 * `toJson` parameter; `show` stands for its `String.valueOf`.
 */
module SignalBatches {
  import opened Wrappers
  import opened JavaText
  import opened JsonData
  import opened Uuids
  import opened ParameterBag
  import opened Errors
  import opened Http
  import opened ApiClient
  import opened Responses
  import opened Requests
  import opened Sequences
  import opened Attributes

  const MetricsPath := "/v2/dashboards/create-metrics"
  const LogsPath := "/v2/dashboards/create-logs"

  /** A `GaugeInput`: a time in epoch milliseconds, a value, and optional attributes and signal fields. */
  datatype GaugeInput = GaugeInput(
    time: int,
    value: Float64,
    attributes: Option<map<string, AttributeValue>>,
    signalId: Option<Uuid>,
    signalName: Option<string>,
    signalDescription: Option<string>)

  /** `GaugeInput.newBuilder().time(t).value(v).attributes(a).build()`: a null time throws. */
  function NewGauge(time: Option<int>, value: Float64, attributes: Option<map<string, AttributeValue>>): (r: Result<GaugeInput, Error>)
    ensures time.None? ==> r == Failure(Thrown(NullFault))
    ensures time.Some? ==> r.Success? && r.value == GaugeInput(time.value, value, attributes, None, None, None)
  {
    match time
    case None => Failure(Thrown(NullFault))
    case Some(t) => Success(GaugeInput(t, value, attributes, None, None, None))
  }

  /**
   * A `LogRecordInput`: a time in epoch milliseconds and optional observed time, severity
   * number, severity text, body, attributes and signal fields.
   */
  datatype LogRecordInput = LogRecordInput(
    time: int,
    observedTime: Option<int>,
    severity: Option<int>,
    severityText: Option<string>,
    body: Option<string>,
    attributes: Option<map<string, AttributeValue>>,
    signalId: Option<Uuid>,
    signalName: Option<string>,
    signalDescription: Option<string>)

  /** `LogRecordInput.newBuilder().time(t).body(b).build()`: a null time throws. */
  function NewLog(time: Option<int>, body: Option<string>): (r: Result<LogRecordInput, Error>)
    ensures time.None? ==> r == Failure(Thrown(NullFault))
    ensures time.Some? ==> r.Success? && r.value == LogRecordInput(time.value, None, None, None, body, None, None, None, None)
  {
    match time
    case None => Failure(Thrown(NullFault))
    case Some(t) => Success(LogRecordInput(t, None, None, None, body, None, None, None, None))
  }

  /**
   * `body(message, throwable)`: the message, a line break and the throwable's stack trace; a
   * null throwable (`trace` is `None`) throws a `NullPointerException`, a null message reads `null`.
   */
  function BodyWithTrace(message: Option<string>, trace: Option<string>): (r: Result<string, Error>)
    ensures trace.None? ==> r == Failure(Thrown(NullFault))
    ensures trace.Some? ==> r == Success(StringOf(message) + "\n" + trace.value)
  {
    match trace
    case None => Failure(Thrown(NullFault))
    case Some(t) => Success(StringOf(message) + "\n" + t)
  }

  /**
   * One pass of the `send()` loop: the item's JSON, or a `ParsingException` about the item; a null
   * item (`None`) throws a `NullPointerException` at `toJson()`, which the loop does not catch.
   */
  function Serializer<T>(toJson: T -> Option<Object>, show: T -> string): (f: Option<T> -> Result<Json, Error>)
  {
    (x: Option<T>) => if x.None? then Failure(Thrown(NullFault))
         else if toJson(x.value).Some? then Success(JObj(toJson(x.value).value))
         else Failure(Parsing(FromCause(JsonFault), show(x.value)))
  }

  /** The JSON array `send()` builds from the list, whose elements may be null. */
  function Batch<T>(items: seq<Option<T>>, toJson: T -> Option<Object>, show: T -> string): (r: Result<seq<Json>, Error>)
  {
    MapAll(items, Serializer(toJson, show))
  }

  /** The item is present and serialises. */
  predicate Serialises<T>(item: Option<T>, toJson: T -> Option<Object>)
  {
    item.Some? && toJson(item.value).Some?
  }

  /**
   * The array holds one JSON object per item, in list order, when every item is present and
   * serialises; an empty list gives an empty array. Otherwise the first item that fails is
   * reported: a null item as the `NullPointerException` itself, an item whose `toJson` fails as a
   * `ParsingException` whose source is that item.
   */
  lemma BatchInOrder<T>(items: seq<Option<T>>, toJson: T -> Option<Object>, show: T -> string)
    ensures Batch(items, toJson, show).Success? <==> forall i :: 0 <= i < |items| ==> Serialises(items[i], toJson)
    ensures Batch(items, toJson, show).Success? ==>
      |Batch(items, toJson, show).value| == |items| &&
      forall i :: 0 <= i < |items| ==> Batch(items, toJson, show).value[i] == JObj(toJson(items[i].value).value)
    ensures Batch(items, toJson, show).Failure? ==>
      exists i :: 0 <= i < |items| && !Serialises(items[i], toJson)
        && (forall j :: 0 <= j < i ==> Serialises(items[j], toJson))
        && (items[i].None? ==> Batch(items, toJson, show).error == Thrown(NullFault))
        && (items[i].Some? ==> Batch(items, toJson, show).error == Parsing(FromCause(JsonFault), show(items[i].value)))
    ensures items == [] ==> Batch(items, toJson, show) == Success([])
  {
    var f := Serializer(toJson, show);
    MapAllFailsIff(items, f);
    assert forall i :: 0 <= i < |items| ==> (f(items[i]).Success? <==> Serialises(items[i], toJson));
  }

  /** `send()` reports nothing but failure: the answer itself is discarded. */
  function Outcome(response: Result<ApiV2Response, Error>): (r: Result<(), Error>)
    ensures r.Success? <==> response.Success?
    ensures r.Failure? ==> r.error == response.error
  {
    match response
    case Failure(e) => Failure(e)
    case Success(_) => Success(())
  }

  /** What `signalId(id)` stores: the UUID, or null. */
  function UuidValue(id: Option<Uuid>): (r: Value)
    ensures id.None? ==> r == VNull
    ensures id.Some? ==> r == VUuid(id.value)
  {
    if id.Some? then VUuid(id.value) else VNull
  }

  class CreateMetricsRequest {
    const request: ApiRequest
    var gauges: seq<Option<GaugeInput>>

    ghost predicate Valid()
      reads this, request, request.params
    {
      request.Valid() && request.verb == Post(JsonContent)
    }

    constructor (client: NetToolKitClient)
      ensures Valid() && fresh(request) && fresh(request.params) && request.client == client
      ensures request.params.values == map[] && gauges == []
    {
      request := new ApiRequest(client, Post(JsonContent));
      gauges := [];
    }

    /** `signalId(id)`. */
    method SetSignalId(id: Option<Uuid>)
      requires Valid()
      modifies request.params
      ensures Valid()
      ensures request.params.values == old(request.params.values)["signal_id" := UuidValue(id)]
    {
      request.params.Put("signal_id", UuidValue(id));
    }

    /** `signalName(s)`. */
    method SetSignalName(name: Option<string>)
      requires Valid()
      modifies request.params
      ensures Valid()
      ensures request.params.values == old(request.params.values)["signal_name" := TextValue(name)]
    {
      request.params.Put("signal_name", TextValue(name));
    }

    /** `signalDescription(s)`. */
    method SetSignalDescription(description: Option<string>)
      requires Valid()
      modifies request.params
      ensures Valid()
      ensures request.params.values == old(request.params.values)["signal_description" := TextValue(description)]
    {
      request.params.Put("signal_description", TextValue(description));
    }

    /** `addGauge(gauge)`: one more gauge, possibly null, at the end of the list. */
    method AddGauge(gauge: Option<GaugeInput>)
      modifies this
      ensures gauges == old(gauges) + [gauge]
    {
      gauges := gauges + [gauge];
    }

    /** `addGauges(list)`: the whole list, null elements included, appended in its order; a null list throws. */
    method AddGauges(list: Option<seq<Option<GaugeInput>>>) returns (r: Result<(), Error>)
      modifies this
      ensures list.None? ==> r == Failure(Thrown(NullFault)) && gauges == old(gauges)
      ensures list.Some? ==> r.Success? && gauges == old(gauges) + list.value
    {
      if list.None? {
        return Failure(Thrown(NullFault));
      }
      gauges := gauges + list.value;
      r := Success(());
    }

    /** `addGauge(value)`: a gauge stamped with the current time `now`. */
    method AddGaugeNow(value: Float64, now: int)
      modifies this
      ensures gauges == old(gauges) + [Some(GaugeInput(now, value, None, None, None, None))]
    {
      var gauge := NewGauge(Some(now), value, None);
      AddGauge(Some(gauge.value));
    }

    /**
     * `addGauge(value, time)` and `addGauge(value, time, attributes)`: a gauge with the given
     * time and attributes, whose entries are taken as they are now; a null time throws.
     */
    method AddGaugeAt(value: Float64, time: Option<int>, attributes: AttributeMap?) returns (r: Result<(), Error>)
      modifies this
      ensures time.None? ==> r == Failure(Thrown(NullFault)) && gauges == old(gauges)
      ensures time.Some? ==> r.Success?
      ensures time.Some? ==> gauges == old(gauges) + [Some(GaugeInput(time.value, value, if attributes == null then None else Some(attributes.entries), None, None, None))]
    {
      var gauge := NewGauge(time, value, if attributes == null then None else Some(attributes.entries));
      if gauge.Failure? {
        return Failure(gauge.error);
      }
      AddGauge(Some(gauge.value));
      r := Success(());
    }

    /**
     * `send()`: serialise every gauge in order, store the array under `gauges`, and send; a gauge
     * that does not serialise throws before the bag changes or the client is called.
     */
    method Send(transport: HttpRequest -> Option<string>, parse: string -> Option<Json>,
                toJson: GaugeInput -> Option<Object>, show: GaugeInput -> string)
      returns (r: Result<(), Error>)
      requires Valid()
      modifies request.params
      ensures Valid()
      ensures Batch(gauges, toJson, show).Failure? ==>
        r == Failure(Batch(gauges, toJson, show).error) && unchanged(request.params)
      ensures Batch(gauges, toJson, show).Success? ==>
        request.params.values == old(request.params.values)["gauges" := VArray(Batch(gauges, toJson, show).value)] &&
        r == Outcome(ExchangeV2(transport, parse, request.Spec(MetricsPath)))
    {
      var batch := CollectAll(gauges, Serializer(toJson, show));
      if batch.Failure? {
        return Failure(batch.error);
      }
      request.params.Put("gauges", VArray(batch.value));
      var response := request.SendV2(transport, parse, MetricsPath);
      r := Outcome(response);
    }
  }

  class CreateLogsRequest {
    const request: ApiRequest
    var logs: seq<Option<LogRecordInput>>

    ghost predicate Valid()
      reads this, request, request.params
    {
      request.Valid() && request.verb == Post(JsonContent)
    }

    constructor (client: NetToolKitClient)
      ensures Valid() && fresh(request) && fresh(request.params) && request.client == client
      ensures request.params.values == map[] && logs == []
    {
      request := new ApiRequest(client, Post(JsonContent));
      logs := [];
    }

    /** `signalId(id)`. */
    method SetSignalId(id: Option<Uuid>)
      requires Valid()
      modifies request.params
      ensures Valid()
      ensures request.params.values == old(request.params.values)["signal_id" := UuidValue(id)]
    {
      request.params.Put("signal_id", UuidValue(id));
    }

    /** `signalName(s)`. */
    method SetSignalName(name: Option<string>)
      requires Valid()
      modifies request.params
      ensures Valid()
      ensures request.params.values == old(request.params.values)["signal_name" := TextValue(name)]
    {
      request.params.Put("signal_name", TextValue(name));
    }

    /** `signalDescription(s)`. */
    method SetSignalDescription(description: Option<string>)
      requires Valid()
      modifies request.params
      ensures Valid()
      ensures request.params.values == old(request.params.values)["signal_description" := TextValue(description)]
    {
      request.params.Put("signal_description", TextValue(description));
    }

    /** `addLog(log)`: one more record, possibly null, at the end of the list. */
    method AddLog(log: Option<LogRecordInput>)
      modifies this
      ensures logs == old(logs) + [log]
    {
      logs := logs + [log];
    }

    /** `addLogs(list)`: the whole list, null elements included, appended in its order; a null list throws. */
    method AddLogs(list: Option<seq<Option<LogRecordInput>>>) returns (r: Result<(), Error>)
      modifies this
      ensures list.None? ==> r == Failure(Thrown(NullFault)) && logs == old(logs)
      ensures list.Some? ==> r.Success? && logs == old(logs) + list.value
    {
      if list.None? {
        return Failure(Thrown(NullFault));
      }
      logs := logs + list.value;
      r := Success(());
    }

    /** `addLog(body)`: a record with this body, stamped with the current time `now`. */
    method AddLogNow(body: Option<string>, now: int)
      modifies this
      ensures logs == old(logs) + [Some(LogRecordInput(now, None, None, None, body, None, None, None, None))]
    {
      var log := NewLog(Some(now), body);
      AddLog(Some(log.value));
    }

    /** `addLog(message, throwable)`: the message and the stack trace `trace` as body, at time `now`. */
    method AddLogWithTrace(message: Option<string>, trace: Option<string>, now: int) returns (r: Result<(), Error>)
      modifies this
      ensures trace.None? ==> r == Failure(Thrown(NullFault)) && logs == old(logs)
      ensures trace.Some? ==> r.Success?
      ensures trace.Some? ==> logs == old(logs) + [Some(LogRecordInput(now, None, None, None, Some(StringOf(message) + "\n" + trace.value), None, None, None, None))]
    {
      var body := BodyWithTrace(message, trace);
      if body.Failure? {
        return Failure(body.error);
      }
      var log := NewLog(Some(now), Some(body.value));
      AddLog(Some(log.value));
      r := Success(());
    }

    /** `addLog(body, time)`: a null time throws. */
    method AddLogAt(body: Option<string>, time: Option<int>) returns (r: Result<(), Error>)
      modifies this
      ensures time.None? ==> r == Failure(Thrown(NullFault)) && logs == old(logs)
      ensures time.Some? ==> r.Success? && logs == old(logs) + [Some(LogRecordInput(time.value, None, None, None, body, None, None, None, None))]
    {
      var log := NewLog(time, body);
      if log.Failure? {
        return Failure(log.error);
      }
      AddLog(Some(log.value));
      r := Success(());
    }

    /** `send()`: as for metrics, with the array stored under `logs`. */
    method Send(transport: HttpRequest -> Option<string>, parse: string -> Option<Json>,
                toJson: LogRecordInput -> Option<Object>, show: LogRecordInput -> string)
      returns (r: Result<(), Error>)
      requires Valid()
      modifies request.params
      ensures Valid()
      ensures Batch(logs, toJson, show).Failure? ==>
        r == Failure(Batch(logs, toJson, show).error) && unchanged(request.params)
      ensures Batch(logs, toJson, show).Success? ==>
        request.params.values == old(request.params.values)["logs" := VArray(Batch(logs, toJson, show).value)] &&
        r == Outcome(ExchangeV2(transport, parse, request.Spec(LogsPath)))
    {
      var batch := CollectAll(logs, Serializer(toJson, show));
      if batch.Failure? {
        return Failure(batch.error);
      }
      request.params.Put("logs", VArray(batch.value));
      var response := request.SendV2(transport, parse, LogsPath);
      r := Outcome(response);
    }
  }

  /**
   * What the request body says about the list: after `send()` the `gauges` member is the array of
   * the gauges' JSON objects in the order they were added, `[]` for no gauges.
   */
  lemma SentGauges(values: map<string, Value>, gauges: seq<Option<GaugeInput>>, toJson: GaugeInput -> Option<Object>, show: GaugeInput -> string)
    requires Batch(gauges, toJson, show).Success?
    ensures var body := JsonOf(values["gauges" := VArray(Batch(gauges, toJson, show).value)]);
      "gauges" in body && body["gauges"].JArr? && |body["gauges"].items| == |gauges| &&
      forall i :: 0 <= i < |gauges| ==> gauges[i].Some? && body["gauges"].items[i] == JObj(toJson(gauges[i].value).value)
  {
    BatchInOrder(gauges, toJson, show);
    JsonOfPut(values, "gauges", VArray(Batch(gauges, toJson, show).value));
  }

  /** The same for the `logs` member of a create-logs request. */
  lemma SentLogs(values: map<string, Value>, logs: seq<Option<LogRecordInput>>, toJson: LogRecordInput -> Option<Object>, show: LogRecordInput -> string)
    requires Batch(logs, toJson, show).Success?
    ensures var body := JsonOf(values["logs" := VArray(Batch(logs, toJson, show).value)]);
      "logs" in body && body["logs"].JArr? && |body["logs"].items| == |logs| &&
      forall i :: 0 <= i < |logs| ==> logs[i].Some? && body["logs"].items[i] == JObj(toJson(logs[i].value).value)
  {
    BatchInOrder(logs, toJson, show);
    JsonOfPut(values, "logs", VArray(Batch(logs, toJson, show).value));
  }
}
