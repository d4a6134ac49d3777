/**
 * `AttributeMap`: the key/value attributes attached to metrics and logs. A hash map updated in
 * place by three `set` overloads, where the last value set for a key wins whatever its type.
 */
module Attributes {
  import opened Wrappers
  import opened JsonData
  import opened Errors

  /** What one of the `set` overloads stores: a String, a Double or a Boolean. */
  datatype AttributeValue = AText(s: string) | ANumber(d: Float64) | AFlag(b: bool)

  /** How the JSON library wraps a stored value. */
  function AttributeJson(v: AttributeValue): Json
  {
    match v
    case AText(s) => JStr(s)
    case ANumber(d) => JFloat(d)
    case AFlag(b) => JBool(b)
  }

  class AttributeMap {
    var entries: map<string, AttributeValue>

    constructor ()
      ensures entries == map[]
    {
      entries := map[];
    }

    /**
     * `set(key, String)`: a null value throws a `NullPointerException` before the map changes;
     * otherwise the map itself is returned, for chaining.
     */
    method SetText(key: string, value: Option<string>) returns (r: Result<AttributeMap, Error>)
      modifies this
      ensures value.None? ==> r == Failure(Thrown(NullFault)) && entries == old(entries)
      ensures value.Some? ==> r == Success(this) && entries == old(entries)[key := AText(value.value)]
    {
      if value.None? {
        return Failure(Thrown(NullFault));
      }
      entries := entries[key := AText(value.value)];
      r := Success(this);
    }

    /** `set(key, double)`. */
    method SetNumber(key: string, value: Float64) returns (r: AttributeMap)
      modifies this
      ensures r == this && entries == old(entries)[key := ANumber(value)]
    {
      entries := entries[key := ANumber(value)];
      r := this;
    }

    /** `set(key, boolean)`. */
    method SetFlag(key: string, value: bool) returns (r: AttributeMap)
      modifies this
      ensures r == this && entries == old(entries)[key := AFlag(value)]
    {
      entries := entries[key := AFlag(value)];
      r := this;
    }

    /** `toJson()`: one member per entry. */
    function ToJson(): (r: Object)
      reads this
    {
      AttributesJson(entries)
    }
  }

  /** The JSON object of a map of attributes: every key, with its value wrapped. */
  function AttributesJson(entries: map<string, AttributeValue>): (r: Object)
    ensures r.Keys == entries.Keys
    ensures forall k :: k in r ==> r[k] == AttributeJson(entries[k])
  {
    map k | k in entries :: AttributeJson(entries[k])
  }

  /** One successful call of a `set` overload: the key and the value it stored. */
  datatype Setting = Setting(key: string, value: AttributeValue)

  /** The entries after a series of successful `set` calls on a new map, each as its method states. */
  function Applied(settings: seq<Setting>): (r: map<string, AttributeValue>)
  {
    if settings == [] then map[]
    else
      var last := settings[|settings| - 1];
      Applied(settings[..|settings| - 1])[last.key := last.value]
  }

  /** The setting `i` is the last one for its key. */
  predicate IsLastFor(settings: seq<Setting>, i: int)
  {
    0 <= i < |settings| && forall j :: i < j < |settings| ==> settings[j].key != settings[i].key
  }

  /** A key is in the map exactly when some `set` call named it. */
  lemma {:induction false} AppliedKeys(settings: seq<Setting>, k: string)
    ensures k in Applied(settings) <==> exists i :: 0 <= i < |settings| && settings[i].key == k
  {
    if settings != [] {
      var n := |settings| - 1;
      var init := settings[..n];
      AppliedKeys(init, k);
      if k != settings[n].key && exists i :: 0 <= i < |settings| && settings[i].key == k {
        var i :| 0 <= i < |settings| && settings[i].key == k;
        assert init[i].key == k;
      }
    }
  }

  /** A key in the map holds the value of the last `set` call that named it. */
  lemma {:induction false} AppliedValue(settings: seq<Setting>, k: string) returns (i: int)
    requires k in Applied(settings)
    ensures IsLastFor(settings, i) && settings[i].key == k && Applied(settings)[k] == settings[i].value
  {
    var n := |settings| - 1;
    var init := settings[..n];
    if k == settings[n].key {
      i := n;
    } else {
      i := AppliedValue(init, k);
      assert settings[i] == init[i];
    }
  }

  /**
   * After any series of `set` calls, `toJson()` holds exactly the keys that were set, each with
   * the value of the last call for that key, whatever the types of earlier values.
   */
  lemma ToJsonAfterSettings(settings: seq<Setting>, k: string)
    ensures k in AttributesJson(Applied(settings)) <==> exists i :: 0 <= i < |settings| && settings[i].key == k
    ensures k in AttributesJson(Applied(settings)) ==>
      exists i :: IsLastFor(settings, i) && settings[i].key == k && AttributesJson(Applied(settings))[k] == AttributeJson(settings[i].value)
  {
    AppliedKeys(settings, k);
    if k in Applied(settings) {
      var i := AppliedValue(settings, k);
    }
  }
}
