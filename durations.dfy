/**
 * The dashboards' duration records as they are read from responses: `DurationEvent` and
 * `DurationSpan`, which report a malformed member as a `ResponseParsingException` naming the
 * member, and the older `Duration` with its `Milestone`s, which lets the JSON library's and
 * `UUID.fromString`'s exceptions through.
 */
module Durations {
  import opened Wrappers
  import opened JsonData
  import opened Uuids
  import opened Errors
  import opened Sequences

  /** `String.valueOf(o.opt(key))`: the member's text, or `"null"` when it is absent. */
  function Shown(o: Object, key: string): (r: string)
    ensures key !in o ==> r == "null"
    ensures key in o ==> r == Text(o[key])
  {
    if key in o then Text(o[key]) else "null"
  }

  /** The member is a string in the canonical UUID form. */
  predicate IsUuidMember(o: Object, key: string)
  {
    key in o && o[key].JStr? && IsUuidText(o[key].s)
  }

  /** `UUID.fromString(o.getString(key))`, any failure reported by `expectedUuid`. */
  function UuidField(resource: string, o: Object, key: string): (r: Result<Uuid, Error>)
    ensures r.Success? <==> IsUuidMember(o, key)
    ensures r.Success? ==> r.value == Parse(o[key].s).value
    ensures r.Failure? ==> r.error == Expected(resource, key, AUuid, Shown(o, key), Text(JObj(o)))
  {
    match GetString(o, key)
    case None => Failure(Expected(resource, key, AUuid, Shown(o, key), Text(JObj(o))))
    case Some(s) =>
      match Parse(s)
      case None => Failure(Expected(resource, key, AUuid, Shown(o, key), Text(JObj(o))))
      case Some(u) => Success(u)
  }

  /** `o.getLong(key)`, a failure reported by `expectedUnixMsTimestamp`. */
  function TimestampField(resource: string, o: Object, key: string): (r: Result<int, Error>)
    ensures r.Success? <==> key in o && o[key].JNum?
    ensures r.Success? ==> r.value == Int64Of(o[key].n)
    ensures r.Failure? ==> r.error == Expected(resource, key, AUnixMsTimestamp, Shown(o, key), Text(JObj(o)))
  {
    match GetLong(o, key)
    case None => Failure(Expected(resource, key, AUnixMsTimestamp, Shown(o, key), Text(JObj(o))))
    case Some(n) => Success(n)
  }

  // ---------------------------------------------------------------------------
  // DurationEvent

  /** A duration event: the time is in epoch milliseconds, the attributes may be absent. */
  datatype DurationEvent = DurationEvent(id: Uuid, spanId: Uuid, name: string, time: int, attributes: Option<Object>)

  const EventResource := "duration_event"

  /**
   * `DurationEvent.fromResponseJson`: `id`, `span_id`, `name` and `time` are checked in that
   * order and the first one missing or malformed is reported, with the whole event as source;
   * `attributes` is kept when it is an object and is otherwise absent, never an error.
   */
  function EventFromJson(o: Object): (r: Result<DurationEvent, Error>)
    ensures r.Success? <==>
      IsUuidMember(o, "id") && IsUuidMember(o, "span_id") && "name" in o && o["name"].JStr? && "time" in o && o["time"].JNum?
    ensures r.Success? ==>
      r.value.id == Parse(o["id"].s).value && r.value.spanId == Parse(o["span_id"].s).value &&
      r.value.name == o["name"].s && r.value.time == Int64Of(o["time"].n) && r.value.attributes == OptObject(o, "attributes")
    ensures !IsUuidMember(o, "id") ==>
      r == Failure(Expected(EventResource, "id", AUuid, Shown(o, "id"), Text(JObj(o))))
    ensures IsUuidMember(o, "id") && !IsUuidMember(o, "span_id") ==>
      r == Failure(Expected(EventResource, "span_id", AUuid, Shown(o, "span_id"), Text(JObj(o))))
    ensures IsUuidMember(o, "id") && IsUuidMember(o, "span_id") && !("name" in o && o["name"].JStr?) ==>
      r == Failure(Expected(EventResource, "name", AString, Shown(o, "name"), Text(JObj(o))))
    ensures IsUuidMember(o, "id") && IsUuidMember(o, "span_id") && "name" in o && o["name"].JStr? && !("time" in o && o["time"].JNum?) ==>
      r == Failure(Expected(EventResource, "time", AUnixMsTimestamp, Shown(o, "time"), Text(JObj(o))))
  {
    var id :- UuidField(EventResource, o, "id");
    var spanId :- UuidField(EventResource, o, "span_id");
    var name :- match GetString(o, "name")
      case None => Failure(Expected(EventResource, "name", AString, Shown(o, "name"), Text(JObj(o))))
      case Some(s) => Success(s);
    var time :- TimestampField(EventResource, o, "time");
    Success(DurationEvent(id, spanId, name, time, OptObject(o, "attributes")))
  }

  // ---------------------------------------------------------------------------
  // DurationSpan

  /**
   * A duration span: the end time, the attributes and the event list are each absent when the
   * response has no such member or a JSON null there.
   */
  datatype DurationSpan = DurationSpan(
    id: Uuid,
    signalId: Uuid,
    startTime: int,
    endTime: Option<int>,
    attributes: Option<Object>,
    events: Option<seq<DurationEvent>>)

  const SpanResource := "duration_span"
  const EventsWords := "a list of events"

  /** `isNull(key) ? null : getLong(key)`. */
  function NullableTimestamp(o: Object, key: string): (r: Result<Option<int>, Error>)
    ensures r.Success? <==> IsNull(o, key) || o[key].JNum?
    ensures r.Success? ==> (r.value.None? <==> IsNull(o, key))
    ensures r.Success? && r.value.Some? ==> r.value.value == Int64Of(o[key].n)
    ensures r.Failure? ==> r.error == Expected(SpanResource, key, AUnixMsTimestamp, Shown(o, key), Text(JObj(o)))
  {
    if IsNull(o, key) then Success(None)
    else
      var n :- TimestampField(SpanResource, o, key);
      Success(Some(n))
  }

  /** `isNull("attributes") ? null : getJSONObject("attributes")`. */
  function NullableAttributes(o: Object): (r: Result<Option<Object>, Error>)
    ensures r.Success? <==> IsNull(o, "attributes") || o["attributes"].JObj?
    ensures r.Success? ==> r.value == OptObject(o, "attributes")
    ensures r.Failure? ==> r.error == Expected(SpanResource, "attributes", AJsonObject, Shown(o, "attributes"), Text(JObj(o)))
  {
    if IsNull(o, "attributes") then Success(None)
    else match GetObject(o, "attributes")
      case None => Failure(Expected(SpanResource, "attributes", AJsonObject, Shown(o, "attributes"), Text(JObj(o))))
      case Some(a) => Success(Some(a))
  }

  /** The error for an `events` member that is not a list of events, with the source given. */
  function NotEvents(o: Object, source: string): (r: Error)
    ensures r.ResponseParsing? && r.source == source
    ensures Message(r) == Some(ResponsePrefix + ExpectedWords(SpanResource, "events", EventsWords, Shown(o, "events")) + " source = " + source)
  {
    ExpectedAs(SpanResource, "events", EventsWords, Shown(o, "events"), source)
  }

  /**
   * One pass of the events loop: an entry that is not an object is reported against the span's
   * `events` member with the entry as source; an object is decoded, and its error, if any, is
   * passed on as it is.
   */
  function EventItem(o: Object, item: Json): (r: Result<DurationEvent, Error>)
    ensures !item.JObj? ==> r == Failure(NotEvents(o, Text(item)))
    ensures item.JObj? ==> r == EventFromJson(item.fields)
  {
    if item.JObj? then EventFromJson(item.fields) else Failure(NotEvents(o, Text(item)))
  }

  /** The events loop over the entries of a span. */
  function EventReader(o: Object): Json -> Result<DurationEvent, Error>
  {
    item => EventItem(o, item)
  }

  /** The event list of a span: absent for a null member, refused for a member that is not an array. */
  function EventsOf(o: Object): (r: Result<Option<seq<DurationEvent>>, Error>)
  {
    if IsNull(o, "events") then Success(None)
    else if !o["events"].JArr? then Failure(NotEvents(o, Text(JObj(o))))
    else
      var events :- MapAll(o["events"].items, EventReader(o));
      Success(Some(events))
  }

  /** `DurationSpan.fromResponseJson`, as a specification: the members in source order, then the events. */
  function SpanOf(o: Object): (r: Result<DurationSpan, Error>)
  {
    var head :- SpanMembers(o);
    var events :- EventsOf(o);
    Success(DurationSpan(head.0, head.1, head.2, head.3, head.4, events))
  }

  /** The five members `fromResponseJson` reads before the events, in source order. */
  function SpanMembers(o: Object): (r: Result<(Uuid, Uuid, int, Option<int>, Option<Object>), Error>)
    ensures r.Success? <==>
      IsUuidMember(o, "id") && IsUuidMember(o, "signal_id") && "start_time" in o && o["start_time"].JNum? &&
      (IsNull(o, "end_time") || o["end_time"].JNum?) && (IsNull(o, "attributes") || o["attributes"].JObj?)
    ensures r.Success? ==> r.value.0 == Parse(o["id"].s).value && r.value.1 == Parse(o["signal_id"].s).value
    ensures r.Success? ==> r.value.2 == Int64Of(o["start_time"].n)
    ensures r.Success? ==> (r.value.3.None? <==> IsNull(o, "end_time"))
    ensures r.Success? && r.value.3.Some? ==> r.value.3.value == Int64Of(o["end_time"].n)
    ensures r.Success? ==> r.value.4 == OptObject(o, "attributes")
  {
    var id :- UuidField(SpanResource, o, "id");
    var signalId :- UuidField(SpanResource, o, "signal_id");
    var startTime :- TimestampField(SpanResource, o, "start_time");
    var endTime :- NullableTimestamp(o, "end_time");
    var attributes :- NullableAttributes(o);
    Success((id, signalId, startTime, endTime, attributes))
  }

  /**
   * The leading members are checked in source order, `id`, `signal_id`, `start_time`,
   * `end_time`, `attributes`, and the first malformed one is reported by the factory for its
   * expected type, naming that member, with the whole span as source.
   */
  lemma SpanMembersFirstBad(o: Object)
    ensures !IsUuidMember(o, "id") ==>
      SpanMembers(o) == Failure(Expected(SpanResource, "id", AUuid, Shown(o, "id"), Text(JObj(o))))
    ensures IsUuidMember(o, "id") && !IsUuidMember(o, "signal_id") ==>
      SpanMembers(o) == Failure(Expected(SpanResource, "signal_id", AUuid, Shown(o, "signal_id"), Text(JObj(o))))
    ensures IsUuidMember(o, "id") && IsUuidMember(o, "signal_id") && !("start_time" in o && o["start_time"].JNum?) ==>
      SpanMembers(o) == Failure(Expected(SpanResource, "start_time", AUnixMsTimestamp, Shown(o, "start_time"), Text(JObj(o))))
    ensures (IsUuidMember(o, "id") && IsUuidMember(o, "signal_id") && "start_time" in o && o["start_time"].JNum? &&
             !(IsNull(o, "end_time") || o["end_time"].JNum?)) ==>
      SpanMembers(o) == Failure(Expected(SpanResource, "end_time", AUnixMsTimestamp, Shown(o, "end_time"), Text(JObj(o))))
    ensures (IsUuidMember(o, "id") && IsUuidMember(o, "signal_id") && "start_time" in o && o["start_time"].JNum? &&
             (IsNull(o, "end_time") || o["end_time"].JNum?) && !(IsNull(o, "attributes") || o["attributes"].JObj?)) ==>
      SpanMembers(o) == Failure(Expected(SpanResource, "attributes", AJsonObject, Shown(o, "attributes"), Text(JObj(o))))
  {
  }

  /** The events part of `fromResponseJson`: null gives none, otherwise a loop over the entries. */
  method ReadEvents(o: Object) returns (r: Result<Option<seq<DurationEvent>>, Error>)
    ensures r == EventsOf(o)
  {
    if IsNull(o, "events") {
      return Success(None);
    }
    if !o["events"].JArr? {
      return Failure(NotEvents(o, Text(JObj(o))));
    }
    var events := CollectAll(o["events"].items, EventReader(o));
    if events.Failure? {
      return Failure(events.error);
    }
    r := Success(Some(events.value));
  }

  /** `DurationSpan.fromResponseJson`: the members in order, then a loop over the events. */
  method SpanFromResponseJson(o: Object) returns (r: Result<DurationSpan, Error>)
    ensures r == SpanOf(o)
  {
    var id := UuidField(SpanResource, o, "id");
    if id.Failure? {
      return Failure(id.error);
    }
    var signalId := UuidField(SpanResource, o, "signal_id");
    if signalId.Failure? {
      return Failure(signalId.error);
    }
    var startTime := TimestampField(SpanResource, o, "start_time");
    if startTime.Failure? {
      return Failure(startTime.error);
    }
    var endTime := NullableTimestamp(o, "end_time");
    if endTime.Failure? {
      return Failure(endTime.error);
    }
    var attributes := NullableAttributes(o);
    if attributes.Failure? {
      return Failure(attributes.error);
    }
    var events := ReadEvents(o);
    if events.Failure? {
      return Failure(events.error);
    }
    r := Success(DurationSpan(id.value, signalId.value, startTime.value, endTime.value, attributes.value, events.value));
  }

  /** `getEvents()`: an empty list when the span has none. */
  function Events(s: DurationSpan): (r: seq<DurationEvent>)
    ensures s.events.None? ==> r == []
    ensures s.events.Some? ==> r == s.events.value
  {
    if s.events.Some? then s.events.value else []
  }

  /**
   * A span is read exactly when its five leading members are well formed and `events`, when not
   * null, is an array of well-formed event objects; the ids and times are the members' values, and
   * the end time, attributes and events are absent exactly when their members are absent or JSON null.
   */
  lemma SpanOfIff(o: Object)
    ensures SpanOf(o).Success? <==>
      IsUuidMember(o, "id") && IsUuidMember(o, "signal_id") && "start_time" in o && o["start_time"].JNum? &&
      (IsNull(o, "end_time") || o["end_time"].JNum?) &&
      (IsNull(o, "attributes") || o["attributes"].JObj?) &&
      (IsNull(o, "events") || (o["events"].JArr? &&
        forall i :: 0 <= i < |o["events"].items| ==> o["events"].items[i].JObj? && EventFromJson(o["events"].items[i].fields).Success?))
    ensures SpanOf(o).Success? ==>
      SpanOf(o).value.id == Parse(o["id"].s).value &&
      SpanOf(o).value.signalId == Parse(o["signal_id"].s).value &&
      SpanOf(o).value.startTime == Int64Of(o["start_time"].n) &&
      (SpanOf(o).value.endTime.None? <==> IsNull(o, "end_time")) &&
      (SpanOf(o).value.endTime.Some? ==> SpanOf(o).value.endTime.value == Int64Of(o["end_time"].n)) &&
      SpanOf(o).value.attributes == OptObject(o, "attributes") &&
      (SpanOf(o).value.events.None? <==> IsNull(o, "events"))
  {
    EventsOfIff(o);
  }

  /** The event list is read exactly when the member is null or an array of well-formed event objects. */
  lemma EventsOfIff(o: Object)
    ensures EventsOf(o).Success? <==>
      IsNull(o, "events") || (o["events"].JArr? &&
        forall i :: 0 <= i < |o["events"].items| ==> o["events"].items[i].JObj? && EventFromJson(o["events"].items[i].fields).Success?)
    ensures EventsOf(o).Success? ==> (EventsOf(o).value.None? <==> IsNull(o, "events"))
  {
    if !IsNull(o, "events") && o["events"].JArr? {
      var items := o["events"].items;
      MapAllFailsIff(items, EventReader(o));
      forall i | 0 <= i < |items|
        ensures EventReader(o)(items[i]).Success? <==> items[i].JObj? && EventFromJson(items[i].fields).Success?
      {
        assert EventReader(o)(items[i]) == EventItem(o, items[i]);
      }
    }
  }

  /** A span that is read carries the event list `EventsOf` reads. */
  lemma SpanOfEvents(o: Object)
    requires SpanOf(o).Success?
    ensures EventsOf(o).Success? && SpanOf(o).value.events == EventsOf(o).value
  {
  }

  /** An event list that is read holds one event per entry, decoded from that entry, in order. */
  lemma EventsOfInOrder(o: Object)
    requires EventsOf(o).Success? && !IsNull(o, "events")
    ensures EventsOf(o).value.Some? && |EventsOf(o).value.value| == |o["events"].items|
    ensures forall i :: 0 <= i < |o["events"].items| ==>
      o["events"].items[i].JObj? && Success(EventsOf(o).value.value[i]) == EventFromJson(o["events"].items[i].fields)
  {
    var items := o["events"].items;
    var events := MapAll(items, EventReader(o));
    assert events.Success? && EventsOf(o).value == Some(events.value);
    forall i | 0 <= i < |items|
      ensures items[i].JObj? && Success(events.value[i]) == EventFromJson(items[i].fields)
    {
      assert EventReader(o)(items[i]) == Success(events.value[i]);
    }
  }

  /** The events of a span are its entries decoded one by one, in order; none when the member is null. */
  lemma SpanEventsInOrder(o: Object)
    requires SpanOf(o).Success?
    ensures IsNull(o, "events") ==> Events(SpanOf(o).value) == []
    ensures !IsNull(o, "events") ==>
      |Events(SpanOf(o).value)| == |o["events"].items| &&
      forall i :: 0 <= i < |o["events"].items| ==>
        o["events"].items[i].JObj? && Success(Events(SpanOf(o).value)[i]) == EventFromJson(o["events"].items[i].fields)
  {
    SpanOfEvents(o);
    if !IsNull(o, "events") {
      EventsOfInOrder(o);
    }
  }

  /**
   * Of the events, the first that cannot be read decides the error: an entry that is not an
   * object is reported against the span's `events` member with the entry as source, and an
   * event object's own error is passed on unchanged, not wrapped.
   */
  lemma SpanFirstBadEvent(o: Object, i: nat)
    requires IsUuidMember(o, "id") && IsUuidMember(o, "signal_id") && "start_time" in o && o["start_time"].JNum?
    requires IsNull(o, "end_time") || o["end_time"].JNum?
    requires IsNull(o, "attributes") || o["attributes"].JObj?
    requires "events" in o && o["events"].JArr? && i < |o["events"].items|
    requires forall j :: 0 <= j < i ==> o["events"].items[j].JObj? && EventFromJson(o["events"].items[j].fields).Success?
    requires EventItem(o, o["events"].items[i]).Failure?
    ensures !o["events"].items[i].JObj? ==> SpanOf(o) == Failure(NotEvents(o, Text(o["events"].items[i])))
    ensures o["events"].items[i].JObj? ==> SpanOf(o) == Failure(EventFromJson(o["events"].items[i].fields).error)
  {
    var items := o["events"].items;
    var f := EventReader(o);
    forall j | 0 <= j < i
      ensures f(items[j]).Success?
    {
      assert f(items[j]) == EventItem(o, items[j]);
    }
    assert f(items[i]) == EventItem(o, items[i]);
    MapAllFirstFailure(items, f, i);
    assert EventsOf(o) == Failure(EventItem(o, items[i]).error);
  }

  // ---------------------------------------------------------------------------
  // Duration and Milestone

  /** A milestone: the timestamp and the additional values may be absent. */
  datatype Milestone = Milestone(name: string, timestamp: Option<int>, failure: bool, additionalValues: Option<Object>)

  /** A duration: start, end and additional values may be absent; the milestones never are. */
  datatype Duration = Duration(
    id: Uuid,
    channelId: Uuid,
    startTime: Option<int>,
    endTime: Option<int>,
    additionalValues: Option<Object>,
    milestones: seq<Milestone>)

  /**
   * `new Milestone(json)`: a null object throws a `NullPointerException`; otherwise nothing
   * fails: the name defaults to `""` and `failure` to false.
   */
  function MilestoneOf(o: Option<Object>): (r: Result<Milestone, Error>)
    ensures o.None? ==> r == Failure(Thrown(NullFault))
    ensures o.Some? ==> r.Success?
    ensures o.Some? ==> r.value.failure == OptBoolean(o.value, "failure", false) && r.value.name == OptStr(o.value, "name")
    ensures o.Some? ==> r.value.timestamp == OptionalLong(o.value, "timestamp") && r.value.additionalValues == OptObject(o.value, "additional_values")
  {
    match o
    case None => Failure(Thrown(NullFault))
    case Some(m) =>
      Success(Milestone(
        OptStr(m, "name"),
        OptionalLong(m, "timestamp"),
        OptBoolean(m, "failure", false),
        if Has(m, "additional_values") then OptObject(m, "additional_values") else None))
  }

  /** One pass of the milestones loop: `optJSONObject(i)` gives null for an entry that is not an object. */
  function MilestoneItem(item: Json): Result<Milestone, Error>
  {
    MilestoneOf(if item.JObj? then Some(item.fields) else None)
  }

  /** `UUID.fromString(optString(key))`. */
  function UuidOrThrow(o: Object, key: string): (r: Result<Uuid, Error>)
    ensures r.Success? <==> IsUuidText(OptStr(o, key))
    ensures r.Success? ==> r.value == Parse(OptStr(o, key)).value
    ensures r.Failure? ==> r.error == Thrown(UuidFault)
  {
    match Parse(OptStr(o, key))
    case None => Failure(Thrown(UuidFault))
    case Some(u) => Success(u)
  }

  /** The milestone list: empty without the member, and a `NullPointerException` when it is not an array. */
  function MilestonesOf(o: Object): (r: Result<seq<Milestone>, Error>)
  {
    if !Has(o, "milestones") then Success([])
    else match OptArray(o, "milestones")
      case None => Failure(Thrown(NullFault))
      case Some(items) => MapAll(items, MilestoneItem)
  }

  /** `new Duration(json)`, as a specification. */
  function DurationOf(o: Object): (r: Result<Duration, Error>)
  {
    var id :- UuidOrThrow(o, "id");
    var channelId :- UuidOrThrow(o, "channel_id");
    var milestones :- MilestonesOf(o);
    Success(Duration(
      id,
      channelId,
      OptionalLong(o, "start_time"),
      OptionalLong(o, "end_time"),
      if Has(o, "additional_values") then OptObject(o, "additional_values") else None,
      milestones))
  }

  /** `new Duration(json)`: the identifiers, the optional members, then a loop over the milestones. */
  method NewDuration(o: Object) returns (r: Result<Duration, Error>)
    ensures r == DurationOf(o)
  {
    var id := UuidOrThrow(o, "id");
    if id.Failure? {
      return Failure(id.error);
    }
    var channelId := UuidOrThrow(o, "channel_id");
    if channelId.Failure? {
      return Failure(channelId.error);
    }
    var additionalValues := if Has(o, "additional_values") then OptObject(o, "additional_values") else None;
    var milestones: seq<Milestone> := [];
    if Has(o, "milestones") {
      var items := OptArray(o, "milestones");
      if items.None? {
        return Failure(Thrown(NullFault));
      }
      var read := CollectAll(items.value, MilestoneItem);
      if read.Failure? {
        return Failure(read.error);
      }
      milestones := read.value;
    }
    r := Success(Duration(id.value, channelId.value, OptionalLong(o, "start_time"), OptionalLong(o, "end_time"),
      additionalValues, milestones));
  }

  /** The empty text is no UUID, so a duration without `id` or `channel_id` is refused. */
  lemma DurationNeedsIds(o: Object)
    ensures "id" !in o ==> DurationOf(o) == Failure(Thrown(UuidFault))
    ensures IsUuidText(OptStr(o, "id")) && "channel_id" !in o ==> DurationOf(o) == Failure(Thrown(UuidFault))
  {
  }

  /**
   * With well-formed identifiers, a duration is read exactly when `milestones` is absent or an
   * array of objects; its milestones are then those objects, read in order.
   */
  lemma DurationMilestones(o: Object)
    requires IsUuidText(OptStr(o, "id")) && IsUuidText(OptStr(o, "channel_id"))
    ensures DurationOf(o).Success? <==>
      !Has(o, "milestones") || (o["milestones"].JArr? && forall i :: 0 <= i < |o["milestones"].items| ==> o["milestones"].items[i].JObj?)
    ensures Has(o, "milestones") && !o["milestones"].JArr? ==> DurationOf(o) == Failure(Thrown(NullFault))
    ensures DurationOf(o).Success? && !Has(o, "milestones") ==> DurationOf(o).value.milestones == []
    ensures DurationOf(o).Success? && Has(o, "milestones") ==>
      |DurationOf(o).value.milestones| == |o["milestones"].items| &&
      forall i :: 0 <= i < |o["milestones"].items| ==>
        Success(DurationOf(o).value.milestones[i]) == MilestoneOf(Some(o["milestones"].items[i].fields))
  {
    if Has(o, "milestones") && o["milestones"].JArr? {
      var items := o["milestones"].items;
      MapAllFailsIff(items, MilestoneItem);
      assert forall i :: 0 <= i < |items| ==> (MilestoneItem(items[i]).Success? <==> items[i].JObj?);
    }
  }

  /**
   * Unlike the newer records, a `Duration` is lenient: a start or end time that is present but
   * JSON null, or not a number, reads as the epoch instant 0 rather than as absent.
   */
  lemma DurationNullTimeIsEpoch(o: Object)
    requires DurationOf(o).Success?
    requires "start_time" in o && !o["start_time"].JNum?
    ensures DurationOf(o).value.startTime == Some(0)
  {
  }
}
