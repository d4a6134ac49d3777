/**
 * JSON values as the SDK's JSON library (`com.nettoolkit.json`, which mirrors org.json
 * class for class) presents them, together with the accessors the SDK calls.
 * Reading JSON text is not modelled: callers receive a parse function as a parameter.
 */
module JsonData {
  import opened Wrappers
  import opened JavaText

  /**
   * A Java `double`, carried opaquely as the text `Double.toString` gives it.
   * No arithmetic is ever done on one.
   */
  datatype Float64 = Float64(text: string)

  datatype Json =
    | JNull
    | JBool(b: bool)
    | JNum(n: int)          // an integral number
    | JFloat(f: Float64)    // a number with a fraction or an exponent
    | JStr(s: string)
    | JArr(items: seq<Json>)
    | JObj(fields: map<string, Json>)

  /** A `JSONObject`: its members by key. */
  type Object = map<string, Json>

  /** `Number.intValue()`: the low 32 bits, as a signed value. */
  function Int32Of(n: int): (r: int)
    ensures -0x8000_0000 <= r < 0x8000_0000
    ensures (r - n) % 0x1_0000_0000 == 0
    ensures -0x8000_0000 <= n < 0x8000_0000 ==> r == n
  {
    var m := n % 0x1_0000_0000;
    if m < 0x8000_0000 then m else m - 0x1_0000_0000
  }

  /** `Number.longValue()`: the low 64 bits, as a signed value. */
  function Int64Of(n: int): (r: int)
    ensures -0x8000_0000_0000_0000 <= r < 0x8000_0000_0000_0000
    ensures (r - n) % 0x1_0000_0000_0000_0000 == 0
    ensures -0x8000_0000_0000_0000 <= n < 0x8000_0000_0000_0000 ==> r == n
  {
    var m := n % 0x1_0000_0000_0000_0000;
    if m < 0x8000_0000_0000_0000 then m else m - 0x1_0000_0000_0000_0000
  }

  // ---------------------------------------------------------------------------
  // Member order when an object is written out

  /** Lexicographic order on strings, by character code. */
  predicate Below(a: string, b: string)
  {
    |a| == 0 || (|b| > 0 && (a[0] < b[0] || (a[0] == b[0] && Below(a[1..], b[1..]))))
  }

  lemma {:induction false} BelowAntisymmetric(a: string, b: string)
    requires Below(a, b) && Below(b, a)
    ensures a == b
  {
    if |a| > 0 {
      BelowAntisymmetric(a[1..], b[1..]);
    }
  }

  lemma {:induction false} BelowTotal(a: string, b: string)
    ensures Below(a, b) || Below(b, a)
  {
    if |a| > 0 && |b| > 0 && a[0] == b[0] {
      BelowTotal(a[1..], b[1..]);
    }
  }

  lemma {:induction false} BelowTransitive(a: string, b: string, c: string)
    requires Below(a, b) && Below(b, c)
    ensures Below(a, c)
  {
    if |a| > 0 && |b| > 0 && |c| > 0 && a[0] == b[0] && b[0] == c[0] {
      BelowTransitive(a[1..], b[1..], c[1..]);
    }
  }

  predicate IsLeast(m: string, s: set<string>)
  {
    m in s && forall x :: x in s ==> Below(m, x)
  }

  /** Every non-empty finite set of strings has a least element. */
  lemma {:induction false} LeastExists(s: set<string>)
    requires s != {}
    ensures exists m :: IsLeast(m, s)
  {
    var y :| y in s;
    if s - {y} == {} {
      forall x | x in s
        ensures Below(y, x)
      {
        assert x !in s - {y};
        BelowTotal(y, x);
      }
      assert IsLeast(y, s);
    } else {
      LeastExists(s - {y});
      var m :| IsLeast(m, s - {y});
      BelowTotal(m, y);
      if Below(m, y) {
        assert IsLeast(m, s);
      } else {
        forall x | x in s
          ensures Below(y, x)
        {
          if x != y {
            BelowTransitive(y, m, x);
          } else {
            BelowTotal(y, y);
          }
        }
        assert IsLeast(y, s);
      }
    }
  }

  lemma LeastUnique()
    ensures forall a, b, s :: IsLeast(a, s) && IsLeast(b, s) ==> a == b
  {
    forall a, b, s | IsLeast(a, s) && IsLeast(b, s)
      ensures a == b
    {
      BelowAntisymmetric(a, b);
    }
  }

  /** The keys of an object in ascending order, each exactly once. */
  function SortedKeys(s: set<string>): (r: seq<string>)
    ensures |r| == |s|
    ensures forall k :: k in r <==> k in s
    ensures forall i, j :: 0 <= i < j < |r| ==> r[i] != r[j] && Below(r[i], r[j])
    decreases |s|
  {
    if s == {} then []
    else
      LeastExists(s);
      LeastUnique();
      var m :| IsLeast(m, s);
      [m] + SortedKeys(s - {m})
  }

  // ---------------------------------------------------------------------------
  // JSON text, as the library writes it

  function HexDigitLower(d: nat): (c: char)
    requires d < 16
  {
    "0123456789abcdef"[d]
  }

  /** How the library's `quote` writes one character, given the character before it. */
  function EscapeChar(c: char, prev: char): string
  {
    if c == '"' then "\\\""
    else if c == '\\' then "\\\\"
    else if c == '/' then (if prev == '<' then "\\/" else "/")
    else if c == '\U{0008}' then "\\b"
    else if c == '\t' then "\\t"
    else if c == '\n' then "\\n"
    else if c == '\U{000C}' then "\\f"
    else if c == '\r' then "\\r"
    else if c < ' ' || (0x80 <= c as int < 0xA0) || (0x2000 <= c as int < 0x2100) then
      var n := c as int;
      "\\u" + [HexDigitLower(n / 4096), HexDigitLower(n / 256 % 16), HexDigitLower(n / 16 % 16), HexDigitLower(n % 16)]
    else [c]
  }

  function EscapeFrom(s: string, prev: char): string
    decreases |s|
  {
    if s == [] then "" else EscapeChar(s[0], prev) + EscapeFrom(s[1..], s[0])
  }

  /** A JSON string literal for `s`. */
  function Quote(s: string): (r: string)
    ensures |r| >= 2 && r[0] == '"' && r[|r| - 1] == '"'
  {
    "\"" + EscapeFrom(s, '\0') + "\""
  }

  /** The library writes a finite double without a trailing fraction of zeros. */
  function TrimZeros(t: string): string
    decreases |t|
  {
    if |t| > 0 && t[|t| - 1] == '0' then TrimZeros(t[..|t| - 1])
    else if |t| > 0 && t[|t| - 1] == '.' then t[..|t| - 1]
    else t
  }

  function DoubleJsonText(f: Float64): string
  {
    var t := f.text;
    if (exists i :: 0 < i < |t| && t[i] == '.') && 'e' !in t && 'E' !in t then TrimZeros(t) else t
  }

  /** `toString()` of a JSON value: its compact JSON text. */
  function Render(v: Json): string
    decreases v, 1
  {
    match v
    case JNull => "null"
    case JBool(b) => if b then "true" else "false"
    case JNum(n) => IntText(n)
    case JFloat(f) => DoubleJsonText(f)
    case JStr(s) => Quote(s)
    case JArr(items) => "[" + RenderItems(v, 0) + "]"
    case JObj(fields) => "{" + RenderMembers(v, SortedKeys(fields.Keys)) + "}"
  }

  function RenderItems(arr: Json, from: nat): string
    requires arr.JArr?
    decreases arr, 0, |arr.items| - from
  {
    if from >= |arr.items| then ""
    else (if from > 0 then "," else "") + Render(arr.items[from]) + RenderItems(arr, from + 1)
  }

  function RenderMembers(obj: Json, keys: seq<string>): string
    requires obj.JObj?
    decreases obj, 0, |keys|
  {
    if keys == [] then ""
    else
      var rest := RenderMembers(obj, keys[1..]);
      var member := if keys[0] in obj.fields then Quote(keys[0]) + ":" + Render(obj.fields[keys[0]]) else "";
      member + (if member != "" && rest != "" then "," else "") + rest
  }

  /** `String.valueOf(value)` for a value read out of a JSON object or array. */
  function Text(v: Json): (r: string)
    ensures v.JStr? ==> r == v.s
    ensures v.JNull? ==> r == "null"
    ensures v.JNum? ==> r == IntText(v.n)
    ensures v.JFloat? ==> r == v.f.text
  {
    match v
    case JStr(s) => s
    case JFloat(f) => f.text
    case _ => Render(v)
  }

  // ---------------------------------------------------------------------------
  // JSONObject accessors

  /** `opt(key)`: the member, or null when the key is absent. */
  function Opt(o: Object, key: string): (r: Option<Json>)
    ensures r.Some? <==> key in o
    ensures r.Some? ==> r.value == o[key]
  {
    if key in o then Some(o[key]) else None
  }

  /** `has(key)`: the key is present, even with a JSON null value. */
  predicate Has(o: Object, key: string)
  {
    key in o
  }

  /** `isNull(key)`: the key is absent or holds JSON null. */
  predicate IsNull(o: Object, key: string)
  {
    key !in o || o[key] == JNull
  }

  /** `optString(key, def)`: the member's text, or `def` when it is absent or JSON null. */
  function OptString(o: Object, key: string, def: Option<string>): (r: Option<string>)
    ensures IsNull(o, key) ==> r == def
    ensures !IsNull(o, key) ==> r == Some(Text(o[key]))
  {
    if IsNull(o, key) then def else Some(Text(o[key]))
  }

  /** `optString(key)`: as above with the default `""`, so never null. */
  function OptStr(o: Object, key: string): (r: string)
    ensures IsNull(o, key) ==> r == ""
    ensures key in o && o[key].JStr? ==> r == o[key].s
  {
    OptString(o, key, Some("")).value
  }

  /** `optInt(key)`: an integral number's `int` value, otherwise 0. */
  function OptInt(o: Object, key: string): (r: int)
    ensures key in o && o[key].JNum? ==> r == Int32Of(o[key].n)
    ensures !(key in o && o[key].JNum?) ==> r == 0
  {
    if key in o && o[key].JNum? then Int32Of(o[key].n) else 0
  }

  /** `optLong(key)`: an integral number's `long` value, otherwise 0. */
  function OptLong(o: Object, key: string): (r: int)
    ensures key in o && o[key].JNum? ==> r == Int64Of(o[key].n)
    ensures !(key in o && o[key].JNum?) ==> r == 0
  {
    if key in o && o[key].JNum? then Int64Of(o[key].n) else 0
  }

  /** `has(key) ? optLong(key) : null`: a present member that is not a number reads as 0. */
  function OptionalLong(o: Object, key: string): (r: Option<int>)
    ensures r.None? <==> key !in o
    ensures key in o && o[key].JNum? ==> r == Some(Int64Of(o[key].n))
    ensures key in o && !o[key].JNum? ==> r == Some(0)
  {
    if Has(o, key) then Some(OptLong(o, key)) else None
  }

  /** `optBoolean(key, def)`: a boolean member, otherwise `def`. */
  function OptBoolean(o: Object, key: string, def: bool): (r: bool)
    ensures key in o && o[key].JBool? ==> r == o[key].b
    ensures !(key in o && o[key].JBool?) ==> r == def
  {
    if key in o && o[key].JBool? then o[key].b else def
  }

  /** `optJSONArray(key)`: the member if it is an array, otherwise null. */
  function OptArray(o: Object, key: string): (r: Option<seq<Json>>)
    ensures r.Some? <==> key in o && o[key].JArr?
    ensures r.Some? ==> r.value == o[key].items
  {
    if key in o && o[key].JArr? then Some(o[key].items) else None
  }

  /** `optJSONObject(key)`: the member if it is an object, otherwise null. */
  function OptObject(o: Object, key: string): (r: Option<Object>)
    ensures r.Some? <==> key in o && o[key].JObj?
    ensures r.Some? ==> r.value == o[key].fields
  {
    if key in o && o[key].JObj? then Some(o[key].fields) else None
  }

  /** `getString(key)`; `None` stands for the `JSONException` thrown when it is not a string. */
  function GetString(o: Object, key: string): (r: Option<string>)
    ensures r.Some? <==> key in o && o[key].JStr?
    ensures r.Some? ==> r.value == o[key].s
  {
    if key in o && o[key].JStr? then Some(o[key].s) else None
  }

  /** `getInt(key)`; `None` stands for the `JSONException` thrown when it is not an integral number. */
  function GetInt(o: Object, key: string): (r: Option<int>)
    ensures r.Some? <==> key in o && o[key].JNum?
    ensures r.Some? ==> r.value == Int32Of(o[key].n)
  {
    if key in o && o[key].JNum? then Some(Int32Of(o[key].n)) else None
  }

  /** `getLong(key)`; `None` stands for the `JSONException` thrown when it is not an integral number. */
  function GetLong(o: Object, key: string): (r: Option<int>)
    ensures r.Some? <==> key in o && o[key].JNum?
    ensures r.Some? ==> r.value == Int64Of(o[key].n)
  {
    if key in o && o[key].JNum? then Some(Int64Of(o[key].n)) else None
  }

  /** `getDouble(key)` on a number; `None` stands for the `JSONException` thrown otherwise. */
  function GetDouble(o: Object, key: string): (r: Option<Json>)
    ensures r.Some? <==> key in o && (o[key].JNum? || o[key].JFloat?)
    ensures r.Some? ==> r.value == o[key]
  {
    if key in o && (o[key].JNum? || o[key].JFloat?) then Some(o[key]) else None
  }

  /** `getJSONObject(key)`; `None` stands for the `JSONException` thrown when it is not an object. */
  function GetObject(o: Object, key: string): (r: Option<Object>)
    ensures r == OptObject(o, key)
  {
    OptObject(o, key)
  }

  /** `getJSONArray(key)`; `None` stands for the `JSONException` thrown when it is not an array. */
  function GetArray(o: Object, key: string): (r: Option<seq<Json>>)
    ensures r == OptArray(o, key)
  {
    OptArray(o, key)
  }

  /** `put(key, value)`: a null value removes the key, any other value replaces it. */
  function Put(o: Object, key: string, value: Option<Json>): (r: Object)
    ensures value.None? ==> key !in r
    ensures value.Some? ==> key in r && r[key] == value.value
    ensures forall k :: k != key ==> (k in r <==> k in o) && (k in r ==> r[k] == o[k])
  {
    if value.Some? then o[key := value.value] else o - {key}
  }

  // ---------------------------------------------------------------------------
  // JSONArray accessors

  /** `opt(i)`: the element, or null when the index is out of range. */
  function ItemAt(items: seq<Json>, i: int): (r: Option<Json>)
    ensures r.Some? <==> 0 <= i < |items|
    ensures r.Some? ==> r.value == items[i]
  {
    if 0 <= i < |items| then Some(items[i]) else None
  }

  /** `optString(i)` on an element: its text, or `""` for JSON null. */
  function ElementString(item: Json): (r: string)
    ensures item == JNull ==> r == ""
    ensures item != JNull ==> r == Text(item)
  {
    if item == JNull then "" else Text(item)
  }

  /** `optJSONObject(i)` and `getJSONObject(i)`: the element if it is an object. */
  function ItemObject(items: seq<Json>, i: int): (r: Option<Object>)
    requires 0 <= i < |items|
    ensures r.Some? <==> items[i].JObj?
    ensures r.Some? ==> r.value == items[i].fields
  {
    if items[i].JObj? then Some(items[i].fields) else None
  }

  /** Reading a member back after writing it gives what was written. */
  lemma PutThenOpt(o: Object, key: string, v: Json, other: string)
    ensures Opt(Put(o, key, Some(v)), key) == Some(v)
    ensures other != key ==> Opt(Put(o, key, Some(v)), other) == Opt(o, other)
    ensures Opt(Put(o, key, None), key) == None
  {
  }
}
