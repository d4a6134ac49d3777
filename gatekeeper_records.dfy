/**
 * The Gatekeeper records read from responses: `Policy`, `Visit`, `VisitorGroup` with its
 * `Visitor`s, and `PageGroup`. Identifiers must be UUIDs and are reported as a
 * `ParsingException` whose source is the offending text; every other member is optional and
 * read leniently.
 */
module GatekeeperRecords {
  import opened Wrappers
  import opened JavaText
  import opened JsonData
  import opened Uuids
  import opened Errors
  import opened Sequences

  /**
   * `UUID.fromString(text)` inside a `try`: a null or malformed text becomes a
   * `ParsingException` with the given message and the text itself as source.
   */
  function ParsedUuid(text: Option<string>, message: string): (r: Result<Uuid, Error>)
    ensures r.Success? <==> text.Some? && IsUuidText(text.value)
    ensures r.Success? ==> r.value == Parse(text.value).value
    ensures r.Failure? ==> r.error == Parsing(Says(message), StringOf(text))
  {
    match text
    case None => Failure(Parsing(Says(message), "null"))
    case Some(s) =>
      match Parse(s)
      case None => Failure(Parsing(Says(message), s))
      case Some(u) => Success(u)
  }

  /** The texts of a JSON array, element by element. */
  function ElementStrings(items: seq<Json>): (r: seq<string>)
    ensures |r| == |items|
    ensures forall i :: 0 <= i < |items| ==> r[i] == ElementString(items[i])
  {
    seq(|items|, i requires 0 <= i < |items| => ElementString(items[i]))
  }

  /** The loop that copies a JSON array's texts into a list: `optString(i)` for each index in turn. */
  method CollectStrings(items: seq<Json>) returns (r: seq<string>)
    ensures r == ElementStrings(items)
  {
    r := [];
    var i := 0;
    while i < |items|
      invariant 0 <= i <= |items|
      invariant r == ElementStrings(items[..i])
    {
      r := r + [ElementString(items[i])];
      i := i + 1;
    }
    assert items[..i] == items;
  }

  /** `optJSONArray(key)` copied as texts: an absent array, or a member that is not one, is an empty list. */
  function StringsOf(o: Object, key: string): (r: seq<string>)
  {
    match OptArray(o, key)
    case None => []
    case Some(items) => ElementStrings(items)
  }

  // ---------------------------------------------------------------------------
  // Policy

  const PolicyIdMessage := "Unable to parse policy ID"
  const VisitorGroupIdsMessage := "Unable to parse visitor group IDs value"
  const PageGroupIdsMessage := "Unable to parse page group IDs value"
  const AppenderIdMessage := "Unable to parse IP appender visitor group ID"

  /** The IP appender settings: a group to add visitors to, and for how long. */
  datatype IpAppender = IpAppender(visitorGroupId: Option<Uuid>, expirationTimeNum: int, expirationTimeUnit: Option<string>)

  datatype Policy = Policy(
    id: Uuid,
    name: Option<string>,
    visitorNegated: bool,
    visitorGroupIds: seq<Uuid>,
    pageGroupIds: seq<Uuid>,
    captchaStatus: string,
    userAgentType: string,
    numTimes: int,
    timeIntervalNum: int,
    timeIntervalUnit: string,
    visitInterval: int,
    authorization: string,
    reason: string,
    ipAppender: IpAppender,
    priority: int,
    enabled: bool,
    description: string,
    created: int,
    isDefault: bool,
    json: Object)

  /** One pass of an identifier-list loop: `UUID.fromString(optString(i))`. */
  function IdReader(message: string): Json -> Result<Uuid, Error>
  {
    item => ParsedUuid(Some(ElementString(item)), message)
  }

  /** An identifier list: empty when the array is absent, else one UUID per element until the first bad one. */
  function IdsOf(o: Object, key: string, message: string): (r: Result<seq<Uuid>, Error>)
  {
    match OptArray(o, key)
    case None => Success([])
    case Some(items) => MapAll(items, IdReader(message))
  }

  /** The identifiers of an identifier list are the elements parsed one by one, in order. */
  lemma IdsOfSpec(o: Object, key: string, message: string)
    ensures OptArray(o, key).None? ==> IdsOf(o, key, message) == Success([])
    ensures OptArray(o, key).Some? ==>
      (IdsOf(o, key, message).Success? <==> forall i :: 0 <= i < |o[key].items| ==> IsUuidText(ElementString(o[key].items[i])))
    ensures IdsOf(o, key, message).Success? && OptArray(o, key).Some? ==>
      |IdsOf(o, key, message).value| == |o[key].items| &&
      forall i :: 0 <= i < |o[key].items| ==> IdsOf(o, key, message).value[i] == Parse(ElementString(o[key].items[i])).value
  {
    if OptArray(o, key).Some? {
      var items := o[key].items;
      var f := IdReader(message);
      MapAllFailsIff(items, f);
      assert forall i :: 0 <= i < |items| ==> (f(items[i]).Success? <==> IsUuidText(ElementString(items[i])));
    }
  }

  /** The first element that is not a UUID is reported, with its own text as source. */
  lemma IdsOfFirstBad(o: Object, key: string, message: string, i: nat)
    requires key in o && o[key].JArr? && i < |o[key].items|
    requires forall j :: 0 <= j < i ==> IsUuidText(ElementString(o[key].items[j]))
    requires !IsUuidText(ElementString(o[key].items[i]))
    ensures IdsOf(o, key, message) == Failure(Parsing(Says(message), ElementString(o[key].items[i])))
  {
    var items := o[key].items;
    var f := IdReader(message);
    assert forall j :: 0 <= j < i ==> f(items[j]).Success?;
    MapAllFirstFailure(items, f, i);
  }

  /**
   * The `ip_appender` object: its group id is read only when present and not null, and must then
   * be a UUID; the expiration number and unit are read only when present.
   */
  function AppenderOf(appender: Option<Object>): (r: Result<IpAppender, Error>)
    ensures appender.None? ==> r == Success(IpAppender(None, 0, None))
    ensures appender.Some? && IsNull(appender.value, "visitor_group_id") ==> r.Success? && r.value.visitorGroupId.None?
    ensures appender.Some? && !IsNull(appender.value, "visitor_group_id") ==>
      (r.Success? <==> IsUuidText(Text(appender.value["visitor_group_id"])))
    ensures appender.Some? && !IsNull(appender.value, "visitor_group_id") && r.Success? ==>
      r.value.visitorGroupId == Some(Parse(Text(appender.value["visitor_group_id"])).value)
    ensures appender.Some? && !IsNull(appender.value, "visitor_group_id") && r.Failure? ==>
      r.error == Parsing(Says(AppenderIdMessage), Text(appender.value["visitor_group_id"]))
    ensures appender.Some? && r.Success? ==>
      (r.value.expirationTimeNum == if "expiration_time_num" in appender.value then OptInt(appender.value, "expiration_time_num") else 0) &&
      (r.value.expirationTimeUnit == if "expiration_time_unit" in appender.value then Some(OptStr(appender.value, "expiration_time_unit")) else None)
  {
    match appender
    case None => Success(IpAppender(None, 0, None))
    case Some(a) =>
      var id :- if Has(a, "visitor_group_id") && !IsNull(a, "visitor_group_id") then
          var u :- ParsedUuid(OptString(a, "visitor_group_id", None), AppenderIdMessage);
          Success(Some(u))
        else Success(None);
      Success(IpAppender(
        id,
        if Has(a, "expiration_time_num") then OptInt(a, "expiration_time_num") else 0,
        if Has(a, "expiration_time_unit") then Some(OptStr(a, "expiration_time_unit")) else None))
  }

  /** `new Policy(json)`, as a specification: the checks in source order, then the lenient members. */
  function PolicyOf(o: Object): (r: Result<Policy, Error>)
  {
    var id :- ParsedUuid(OptString(o, "id", None), PolicyIdMessage);
    var visitorGroupIds :- IdsOf(o, "visitor_group_ids", VisitorGroupIdsMessage);
    var pageGroupIds :- IdsOf(o, "page_group_ids", PageGroupIdsMessage);
    var ipAppender :- AppenderOf(OptObject(o, "ip_appender"));
    Success(Policy(
      id,
      OptString(o, "name", None),
      OptBoolean(o, "visitor_negated", false),
      visitorGroupIds,
      pageGroupIds,
      OptStr(o, "captcha_status"),
      OptStr(o, "user_agent_type"),
      OptInt(o, "num_times"),
      OptInt(o, "time_interval_num"),
      OptStr(o, "time_interval_unit"),
      OptInt(o, "visit_interval"),
      OptStr(o, "authorization"),
      OptStr(o, "reason"),
      ipAppender,
      OptInt(o, "priority"),
      OptBoolean(o, "enabled", false),
      OptStr(o, "description"),
      OptLong(o, "created"),
      OptBoolean(o, "is_default", false),
      o))
  }

  /** `new Policy(json)`: the identifier, the two identifier-list loops, the IP appender, the rest. */
  method NewPolicy(o: Object) returns (r: Result<Policy, Error>)
    ensures r == PolicyOf(o)
  {
    var id := ParsedUuid(OptString(o, "id", None), PolicyIdMessage);
    if id.Failure? {
      return Failure(id.error);
    }
    var visitorGroupIds: seq<Uuid> := [];
    var visitorGroupItems := OptArray(o, "visitor_group_ids");
    if visitorGroupItems.Some? {
      var ids := CollectAll(visitorGroupItems.value, IdReader(VisitorGroupIdsMessage));
      if ids.Failure? {
        return Failure(ids.error);
      }
      visitorGroupIds := ids.value;
    }
    var pageGroupIds: seq<Uuid> := [];
    var pageGroupItems := OptArray(o, "page_group_ids");
    if pageGroupItems.Some? {
      var ids := CollectAll(pageGroupItems.value, IdReader(PageGroupIdsMessage));
      if ids.Failure? {
        return Failure(ids.error);
      }
      pageGroupIds := ids.value;
    }
    var ipAppender := AppenderOf(OptObject(o, "ip_appender"));
    if ipAppender.Failure? {
      return Failure(ipAppender.error);
    }
    r := Success(Policy(
      id.value, OptString(o, "name", None), OptBoolean(o, "visitor_negated", false), visitorGroupIds, pageGroupIds,
      OptStr(o, "captcha_status"), OptStr(o, "user_agent_type"), OptInt(o, "num_times"), OptInt(o, "time_interval_num"),
      OptStr(o, "time_interval_unit"), OptInt(o, "visit_interval"), OptStr(o, "authorization"), OptStr(o, "reason"),
      ipAppender.value, OptInt(o, "priority"), OptBoolean(o, "enabled", false), OptStr(o, "description"),
      OptLong(o, "created"), OptBoolean(o, "is_default", false), o));
  }

  /** A policy whose `id` is absent, JSON null or not a UUID is refused, with the id text (or `null`) as source. */
  lemma PolicyNeedsId(o: Object)
    ensures IsNull(o, "id") ==> PolicyOf(o) == Failure(Parsing(Says(PolicyIdMessage), "null"))
    ensures !IsNull(o, "id") && !IsUuidText(Text(o["id"])) ==> PolicyOf(o) == Failure(Parsing(Says(PolicyIdMessage), Text(o["id"])))
  {
  }

  /**
   * With a valid id, a policy is read exactly when both identifier lists hold only UUIDs and the
   * IP appender's group id, if any, is one; the lists keep the arrays' length and order.
   */
  lemma PolicyOfGroupIds(o: Object)
    requires ParsedUuid(OptString(o, "id", None), PolicyIdMessage).Success?
    ensures PolicyOf(o).Success? <==>
      IdsOf(o, "visitor_group_ids", VisitorGroupIdsMessage).Success? &&
      IdsOf(o, "page_group_ids", PageGroupIdsMessage).Success? &&
      AppenderOf(OptObject(o, "ip_appender")).Success?
    ensures IdsOf(o, "visitor_group_ids", VisitorGroupIdsMessage).Failure? ==>
      PolicyOf(o) == Failure(IdsOf(o, "visitor_group_ids", VisitorGroupIdsMessage).error)
    ensures PolicyOf(o).Success? ==>
      PolicyOf(o).value.visitorGroupIds == IdsOf(o, "visitor_group_ids", VisitorGroupIdsMessage).value &&
      PolicyOf(o).value.pageGroupIds == IdsOf(o, "page_group_ids", PageGroupIdsMessage).value &&
      PolicyOf(o).value.ipAppender == AppenderOf(OptObject(o, "ip_appender")).value
  {
  }

  /**
   * Without an `ip_appender` object a policy has no appender group, expiration 0 and no unit;
   * absent scalar members read as `""`, 0 and false, and the name as null.
   */
  lemma PolicyDefaults(o: Object)
    requires PolicyOf(o).Success?
    ensures OptObject(o, "ip_appender").None? ==> PolicyOf(o).value.ipAppender == IpAppender(None, 0, None)
    ensures "name" !in o ==> PolicyOf(o).value.name.None?
    ensures "priority" !in o ==> PolicyOf(o).value.priority == 0
    ensures "enabled" !in o ==> !PolicyOf(o).value.enabled
    ensures "description" !in o ==> PolicyOf(o).value.description == ""
    ensures PolicyOf(o).value.json == o
  {
  }

  // ---------------------------------------------------------------------------
  // Visit

  const VisitIdMessage := "Unable to parse visit ID"

  datatype Visit = Visit(
    id: Uuid,
    ipAddress: Option<string>,
    domain: Option<string>,
    page: Option<string>,
    userId: Option<int>,
    userAgent: Option<string>,
    countryCode: Option<string>,
    countryName: Option<string>,
    tags: seq<string>,
    policyId: Option<Uuid>,
    policyName: Option<string>,
    authorization: Option<string>,
    reason: Option<string>,
    created: Option<int>)

  /** `policy_id` is optional, but when it is there it must be a UUID. */
  function VisitPolicyId(o: Object): (r: Result<Option<Uuid>, Error>)
    ensures IsNull(o, "policy_id") ==> r == Success(None)
    ensures !IsNull(o, "policy_id") && IsUuidText(Text(o["policy_id"])) ==> r == Success(Some(Parse(Text(o["policy_id"])).value))
    ensures !IsNull(o, "policy_id") && !IsUuidText(Text(o["policy_id"])) ==> r == Failure(Parsing(Says(PolicyIdMessage), Text(o["policy_id"])))
  {
    match OptString(o, "policy_id", None)
    case None => Success(None)
    case Some(s) =>
      var u :- ParsedUuid(Some(s), PolicyIdMessage);
      Success(Some(u))
  }

  /** `new Visit(json)`, as a specification. */
  function VisitOf(o: Object): (r: Result<Visit, Error>)
  {
    var id :- ParsedUuid(OptString(o, "id", None), VisitIdMessage);
    var policyId :- VisitPolicyId(o);
    Success(Visit(
      id,
      OptString(o, "ip", None),
      OptString(o, "domain", None),
      OptString(o, "page", None),
      OptionalLong(o, "user_id"),
      OptString(o, "user_agent", None),
      OptString(o, "country_code", None),
      OptString(o, "country_name", None),
      StringsOf(o, "tags"),
      policyId,
      OptString(o, "policy_name", None),
      OptString(o, "authorization", None),
      OptString(o, "reason", None),
      OptionalLong(o, "created")))
  }

  /** `new Visit(json)`: the identifier, the optional members, the tags loop, the policy id. */
  method NewVisit(o: Object) returns (r: Result<Visit, Error>)
    ensures r == VisitOf(o)
  {
    var id := ParsedUuid(OptString(o, "id", None), VisitIdMessage);
    if id.Failure? {
      return Failure(id.error);
    }
    var tags: seq<string> := [];
    var tagItems := OptArray(o, "tags");
    if tagItems.Some? {
      tags := CollectStrings(tagItems.value);
    }
    var policyId := VisitPolicyId(o);
    if policyId.Failure? {
      return Failure(policyId.error);
    }
    r := Success(Visit(
      id.value, OptString(o, "ip", None), OptString(o, "domain", None), OptString(o, "page", None),
      OptionalLong(o, "user_id"), OptString(o, "user_agent", None), OptString(o, "country_code", None),
      OptString(o, "country_name", None), tags, policyId.value, OptString(o, "policy_name", None),
      OptString(o, "authorization", None), OptString(o, "reason", None), OptionalLong(o, "created")));
  }

  /**
   * A visit is read exactly when its `id` is a UUID and its `policy_id` is absent, null or a UUID;
   * the id is checked first.
   */
  lemma VisitOfIff(o: Object)
    ensures VisitOf(o).Success? <==>
      !IsNull(o, "id") && IsUuidText(Text(o["id"])) && (IsNull(o, "policy_id") || IsUuidText(Text(o["policy_id"])))
    ensures IsNull(o, "id") ==> VisitOf(o) == Failure(Parsing(Says(VisitIdMessage), "null"))
    ensures !IsNull(o, "id") && !IsUuidText(Text(o["id"])) ==> VisitOf(o) == Failure(Parsing(Says(VisitIdMessage), Text(o["id"])))
  {
  }

  /**
   * The user id and creation time are present exactly when their members are; the tags keep the
   * array's length and order, and are empty without an array; the policy id is null without one.
   */
  lemma VisitOptionalMembers(o: Object)
    requires VisitOf(o).Success?
    ensures VisitOf(o).value.userId.Some? <==> "user_id" in o
    ensures VisitOf(o).value.created.Some? <==> "created" in o
    ensures OptArray(o, "tags").None? ==> VisitOf(o).value.tags == []
    ensures OptArray(o, "tags").Some? ==>
      |VisitOf(o).value.tags| == |o["tags"].items| &&
      forall i :: 0 <= i < |o["tags"].items| ==> VisitOf(o).value.tags[i] == ElementString(o["tags"].items[i])
    ensures IsNull(o, "policy_id") ==> VisitOf(o).value.policyId.None?
  {
  }

  /** `getCreated()`: unboxing a null creation time throws a `NullPointerException`. */
  function Created(v: Visit): (r: Result<int, Error>)
    ensures r.Success? <==> v.created.Some?
    ensures r.Success? ==> r.value == v.created.value
    ensures r.Failure? ==> r.error == Thrown(NullFault)
  {
    match v.created
    case None => Failure(Thrown(NullFault))
    case Some(t) => Success(t)
  }

  /** Reading a visit without `created` succeeds, but asking it for its creation time throws. */
  lemma CreatedOfVisitWithoutTime(o: Object)
    requires VisitOf(o).Success? && "created" !in o
    ensures Created(VisitOf(o).value) == Failure(Thrown(NullFault))
  {
  }

  // ---------------------------------------------------------------------------
  // VisitorGroup and Visitor

  const VisitorGroupIdMessage := "Unable to parse visitor group ID"

  datatype Visitor = Visitor(value: Option<string>, created: Option<int>, expires: Option<int>, creator: Option<string>)

  /** The creator: type and name separated by a space when both are there, otherwise the type alone. */
  function Creator(creatorType: Option<string>, creatorName: Option<string>): (r: Option<string>)
    ensures creatorType.None? ==> r.None?
    ensures creatorType.Some? && creatorName.Some? ==> r == Some(creatorType.value + " " + creatorName.value)
    ensures creatorName.None? ==> r == creatorType
  {
    if creatorType.Some? && creatorName.Some? then Some(creatorType.value + " " + creatorName.value)
    else creatorType
  }

  /** `new Visitor(json)`: a null object throws a `NullPointerException`, and nothing else fails. */
  function VisitorOf(v: Option<Object>): (r: Result<Visitor, Error>)
    ensures v.None? ==> r == Failure(Thrown(NullFault))
    ensures v.Some? ==> r.Success?
    ensures v.Some? ==> (r.value.created.Some? <==> "created" in v.value)
    ensures v.Some? ==> (r.value.expires.Some? <==> "expires" in v.value)
    ensures v.Some? ==> r.value.creator == Creator(OptString(v.value, "creator_type", None), OptString(v.value, "creator_name", None))
  {
    match v
    case None => Failure(Thrown(NullFault))
    case Some(o) =>
      Success(Visitor(
        OptString(o, "value", None),
        OptionalLong(o, "created"),
        OptionalLong(o, "expires"),
        Creator(OptString(o, "creator_type", None), OptString(o, "creator_name", None))))
  }

  /** One pass of the visitors loop: `optJSONObject(i)` gives null for an element that is not an object. */
  function VisitorItem(item: Json): Result<Visitor, Error>
  {
    VisitorOf(if item.JObj? then Some(item.fields) else None)
  }

  datatype VisitorGroup = VisitorGroup(
    id: Uuid,
    name: Option<string>,
    visitorType: Option<string>,
    operator: Option<string>,
    visitors: seq<Visitor>,
    json: Object)

  /**
   * The identifier of a visitor or page group: `optString("id")` is never null, so the source's
   * null check always passes and an absent id is parsed as the empty text, which is refused.
   */
  function GroupId(o: Object, message: string): (r: Result<Uuid, Error>)
    ensures r.Success? <==> IsUuidText(OptStr(o, "id"))
    ensures r.Success? ==> r.value == Parse(OptStr(o, "id")).value
    ensures r.Failure? ==> r.error == Parsing(Says(message), OptStr(o, "id"))
  {
    ParsedUuid(Some(OptStr(o, "id")), message)
  }

  /** The visitors: empty without an array, otherwise one per element until a non-object element throws. */
  function VisitorsOf(o: Object): (r: Result<seq<Visitor>, Error>)
  {
    match OptArray(o, "visitors")
    case None => Success([])
    case Some(items) => MapAll(items, VisitorItem)
  }

  /** `new VisitorGroup(json)`, as a specification. */
  function VisitorGroupOf(o: Object): (r: Result<VisitorGroup, Error>)
  {
    var id :- GroupId(o, VisitorGroupIdMessage);
    var visitors :- VisitorsOf(o);
    Success(VisitorGroup(
      id,
      OptString(o, "name", None),
      OptString(o, "visitor_type", None),
      OptString(o, "operator", None),
      visitors,
      o))
  }

  /** `new VisitorGroup(json)`: the identifier, the optional members, then the visitors loop. */
  method NewVisitorGroup(o: Object) returns (r: Result<VisitorGroup, Error>)
    ensures r == VisitorGroupOf(o)
  {
    var id := GroupId(o, VisitorGroupIdMessage);
    if id.Failure? {
      return Failure(id.error);
    }
    var visitors: seq<Visitor> := [];
    var visitorItems := OptArray(o, "visitors");
    if visitorItems.Some? {
      var list := CollectAll(visitorItems.value, VisitorItem);
      if list.Failure? {
        return Failure(list.error);
      }
      visitors := list.value;
    }
    r := Success(VisitorGroup(id.value, OptString(o, "name", None), OptString(o, "visitor_type", None),
      OptString(o, "operator", None), visitors, o));
  }

  /** A visitor group without `id` is refused, with the empty text as source. */
  lemma VisitorGroupNeedsId(o: Object)
    ensures IsNull(o, "id") ==> VisitorGroupOf(o) == Failure(Parsing(Says(VisitorGroupIdMessage), ""))
  {
  }

  /**
   * With a valid id, a visitor group is read exactly when `visitors` is absent, not an array, or
   * an array of objects; an element that is not an object throws a `NullPointerException`, not a
   * parsing exception. The visitors follow the array's order.
   */
  lemma VisitorGroupVisitors(o: Object)
    requires IsUuidText(OptStr(o, "id"))
    ensures VisitorGroupOf(o).Success? <==>
      OptArray(o, "visitors").None? || forall i :: 0 <= i < |o["visitors"].items| ==> o["visitors"].items[i].JObj?
    ensures VisitorGroupOf(o).Failure? ==> VisitorGroupOf(o).error == Thrown(NullFault)
    ensures VisitorGroupOf(o).Success? && OptArray(o, "visitors").None? ==> VisitorGroupOf(o).value.visitors == []
    ensures VisitorGroupOf(o).Success? && OptArray(o, "visitors").Some? ==>
      |VisitorGroupOf(o).value.visitors| == |o["visitors"].items| &&
      forall i :: 0 <= i < |o["visitors"].items| ==>
        Success(VisitorGroupOf(o).value.visitors[i]) == VisitorOf(Some(o["visitors"].items[i].fields))
  {
    if OptArray(o, "visitors").Some? {
      var items := o["visitors"].items;
      MapAllFailsIff(items, VisitorItem);
      assert forall i :: 0 <= i < |items| ==> (VisitorItem(items[i]).Success? <==> items[i].JObj?);
    }
  }

  // ---------------------------------------------------------------------------
  // PageGroup

  const PageGroupIdMessage := "Unable to parse page group ID"

  datatype PageGroup = PageGroup(id: Uuid, name: Option<string>, pageVisitCheck: Option<string>, pages: seq<string>)

  /** `new PageGroup(json)`, as a specification. */
  function PageGroupOf(o: Object): (r: Result<PageGroup, Error>)
  {
    var id :- GroupId(o, PageGroupIdMessage);
    Success(PageGroup(id, OptString(o, "name", None), OptString(o, "page_visit_check", None), StringsOf(o, "pages")))
  }

  /** `new PageGroup(json)`: the identifier, the optional members, then the pages loop. */
  method NewPageGroup(o: Object) returns (r: Result<PageGroup, Error>)
    ensures r == PageGroupOf(o)
  {
    var id := GroupId(o, PageGroupIdMessage);
    if id.Failure? {
      return Failure(id.error);
    }
    var pages: seq<string> := [];
    var pageItems := OptArray(o, "pages");
    if pageItems.Some? {
      pages := CollectStrings(pageItems.value);
    }
    r := Success(PageGroup(id.value, OptString(o, "name", None), OptString(o, "page_visit_check", None), pages));
  }

  /**
   * A page group is read exactly when its `id` reads as a UUID, an absent one being refused with
   * the empty text as source; its pages keep the array's length and order.
   */
  lemma PageGroupOfSpec(o: Object)
    ensures PageGroupOf(o).Success? <==> IsUuidText(OptStr(o, "id"))
    ensures IsNull(o, "id") ==> PageGroupOf(o) == Failure(Parsing(Says(PageGroupIdMessage), ""))
    ensures PageGroupOf(o).Success? && OptArray(o, "pages").None? ==> PageGroupOf(o).value.pages == []
    ensures PageGroupOf(o).Success? && OptArray(o, "pages").Some? ==>
      |PageGroupOf(o).value.pages| == |o["pages"].items| &&
      forall i :: 0 <= i < |o["pages"].items| ==> PageGroupOf(o).value.pages[i] == ElementString(o["pages"].items[i])
  {
  }
}
