/**
 * The request parameter bag: a string-keyed hash map where the last write wins, written
 * out either as an `application/x-www-form-urlencoded` form or as a JSON object.
 */
module ParameterBag {
  import opened Wrappers
  import opened JavaText
  import opened JsonData
  import opened Uuids
  import opened UrlEncoding
  import opened Sequences

  /** What one of the `put` overloads stores: the argument as it is at run time. */
  datatype Value =
    | VNull                            // any overload called with null
    | VBool(b: bool)                   // Boolean
    | VInt(i: int)                     // Integer or Long
    | VDouble(d: Float64)              // Double
    | VStr(s: string)                  // String
    | VUuid(u: Uuid)                   // UUID
    | VCollection(elems: seq<Value>)   // a Collection, in its iteration order
    | VObject(o: Object)               // JSONObject
    | VArray(items: seq<Json>)         // JSONArray, which is not a Collection

  /** What `put(key, String)` stores for a possibly-null string. */
  function TextValue(s: Option<string>): (r: Value)
  {
    if s.Some? then VStr(s.value) else VNull
  }

  /** `String.valueOf(value)`. */
  function ValueText(v: Value): string
  {
    match v
    case VNull => "null"
    case VBool(b) => if b then "true" else "false"
    case VInt(i) => IntText(i)
    case VDouble(d) => d.text
    case VStr(s) => s
    case VUuid(u) => u.text
    case VCollection(elems) => "[" + Join(", ", seq(|elems|, i requires 0 <= i < |elems| => ValueText(elems[i]))) + "]"
    case VObject(o) => Render(JObj(o))
    case VArray(items) => Render(JArr(items))
  }

  /** The JSON library's `wrap`: how a stored value appears inside a JSON object. */
  function Wrap(v: Value): Json
  {
    match v
    case VNull => JNull
    case VBool(b) => JBool(b)
    case VInt(i) => JNum(i)
    case VDouble(d) => JFloat(d)
    case VStr(s) => JStr(s)
    case VUuid(u) => JStr(u.text)
    case VCollection(elems) => JArr(seq(|elems|, i requires 0 <= i < |elems| => Wrap(elems[i])))
    case VObject(o) => JObj(o)
    case VArray(items) => JArr(items)
  }

  /** The values one entry contributes to a form: null once, a collection element by element. */
  function Expand(v: Value): (r: seq<Value>)
    ensures v.VNull? ==> r == [VNull]
    ensures v.VCollection? ==> r == v.elems
    ensures !v.VNull? && !v.VCollection? ==> r == [v]
  {
    if v.VNull? then [VNull]
    else if v.VCollection? then v.elems
    else [v]
  }

  /** The pairs `key=element` for the given values, in order. */
  function KeyPairs(key: string, vs: seq<Value>): (r: seq<(string, string)>)
    ensures |r| == |vs|
    ensures forall i :: 0 <= i < |vs| ==> r[i] == (key, ValueText(vs[i]))
  {
    if vs == [] then [] else KeyPairs(key, vs[..|vs| - 1]) + [(key, ValueText(vs[|vs| - 1]))]
  }

  /** The pairs one key contributes: its expansion when the bag holds it, nothing otherwise. */
  function Block(values: map<string, Value>, key: string): seq<(string, string)>
  {
    if key in values then KeyPairs(key, Expand(values[key])) else []
  }

  /** The entries' pairs, key by key in the map's iteration order. */
  function FormPairs(values: map<string, Value>, order: seq<string>): seq<(string, string)>
  {
    if order == [] then [] else FormPairs(values, order[..|order| - 1]) + Block(values, order[|order| - 1])
  }

  /** No key is listed twice. */
  predicate Distinct(order: seq<string>)
  {
    forall i, j :: 0 <= i < j < |order| ==> order[i] != order[j]
  }

  /** `order` lists each key of `keys` exactly once. */
  ghost predicate IsOrdering(order: seq<string>, keys: set<string>)
  {
    Distinct(order) && (forall k :: k in order <==> k in keys)
  }

  /** The key order after a `put`: a new key goes last, a key already held keeps its place. */
  function OrderAfterPut(order: seq<string>, values: map<string, Value>, key: string): seq<string>
  {
    if key in values then order else order + [key]
  }

  class Parameters {
    /** The entries of the map. */
    var values: map<string, Value>
    /**
     * The order in which the map is iterated. A `HashMap` leaves it unspecified; the model keeps
     * first-insertion order, and what it proves about the form holds for every ordering of the keys.
     */
    var order: seq<string>

    ghost predicate Valid()
      reads this
    {
      IsOrdering(order, values.Keys)
    }

    constructor()
      ensures Valid() && values == map[] && order == []
    {
      values := map[];
      order := [];
    }

    /** Any of the nine `put` overloads: the key now holds `v`, whatever it held before. */
    method Put(key: string, v: Value)
      requires Valid()
      modifies this
      ensures Valid()
      ensures values == old(values)[key := v]
      ensures order == OrderAfterPut(old(order), old(values), key)
    {
      if key !in values {
        order := order + [key];
      }
      values := values[key := v];
    }

    /** `toWwwFormUrlencoded`: the form of all entries' pairs. */
    method ToWwwFormUrlencoded() returns (r: string)
      requires Valid()
      ensures r == FormText(FormPairs(values, order))
    {
      var sb := "";
      var isFirst := true;
      var i := 0;
      while i < |order|
        invariant 0 <= i <= |order|
        invariant sb == FormText(FormPairs(values, order[..i]))
        invariant isFirst == (FormPairs(values, order[..i]) == [])
      {
        var key := order[i];
        var entry := values[key];
        var listValues: seq<Value>;
        if entry.VNull? {
          listValues := [VNull];
        } else if entry.VCollection? {
          listValues := entry.elems;
        } else {
          listValues := [entry];
        }
        assert listValues == Expand(entry);
        assert key in order;
        sb, isFirst := AppendPairs(sb, isFirst, FormPairs(values, order[..i]), key, listValues);
        FormPairsStep(values, order, i);
        i := i + 1;
      }
      assert order[..i] == order;
      r := sb;
    }

    /** `toJson`: an object with every entry whose value is not null. */
    function ToJson(): (r: Object)
      reads this
      requires Valid()
      ensures forall k :: k in r <==> k in values && values[k] != VNull
      ensures forall k :: k in r ==> r[k] == Wrap(values[k])
    {
      JsonOf(values)
    }
  }

  /** The JSON object of a bag's entries: null entries are left out, the others wrapped. */
  function JsonOf(values: map<string, Value>): (r: Object)
    ensures forall k :: k in r <==> k in values && values[k] != VNull
    ensures forall k :: k in r ==> r[k] == Wrap(values[k])
  {
    map k | k in values && values[k] != VNull :: Wrap(values[k])
  }

  /** A `put` seen in the JSON object: a null value removes the member, any other replaces it. */
  lemma JsonOfPut(values: map<string, Value>, key: string, v: Value)
    ensures v == VNull ==> JsonOf(values[key := v]) == JsonOf(values) - {key}
    ensures v != VNull ==> JsonOf(values[key := v]) == JsonOf(values)[key := Wrap(v)]
  {
  }

  /** The inner loop of `toWwwFormUrlencoded`: one entry's pairs, each after a `&` unless it is the first. */
  method AppendPairs(sb: string, isFirst: bool, ghost before: seq<(string, string)>, key: string, vs: seq<Value>)
    returns (sb': string, isFirst': bool)
    requires sb == FormText(before) && isFirst == (before == [])
    ensures sb' == FormText(before + KeyPairs(key, vs))
    ensures isFirst' == (before + KeyPairs(key, vs) == [])
  {
    sb', isFirst' := sb, isFirst;
    ghost var done := before;
    var j := 0;
    assert before + KeyPairs(key, vs[..j]) == before;
    while j < |vs|
      invariant 0 <= j <= |vs|
      invariant done == before + KeyPairs(key, vs[..j])
      invariant sb' == FormText(done)
      invariant isFirst' == (done == [])
    {
      if isFirst' {
        isFirst' := false;
      } else {
        sb' := sb' + "&";
      }
      sb' := sb' + EncodePair((key, ValueText(vs[j])));
      FormTextStep(before, key, vs, j);
      done := before + KeyPairs(key, vs[..j + 1]);
      j := j + 1;
    }
    assert vs[..j] == vs;
  }

  lemma FormPairsStep(values: map<string, Value>, order: seq<string>, i: nat)
    requires i < |order|
    ensures FormPairs(values, order[..i + 1]) == FormPairs(values, order[..i]) + Block(values, order[i])
  {
    assert order[..i + 1][..i] == order[..i];
  }

  /** Writing the next element's pair extends the form text by `&` (unless it was empty) and the pair. */
  lemma FormTextStep(before: seq<(string, string)>, key: string, vs: seq<Value>, j: nat)
    requires j < |vs|
    ensures before + KeyPairs(key, vs[..j + 1]) != []
    ensures var done := before + KeyPairs(key, vs[..j]);
      FormText(before + KeyPairs(key, vs[..j + 1]))
      == (if done == [] then "" else FormText(done) + "&") + EncodePair((key, ValueText(vs[j])))
  {
    var done := before + KeyPairs(key, vs[..j]);
    var pair := (key, ValueText(vs[j]));
    assert vs[..j + 1][..j] == vs[..j];
    assert before + KeyPairs(key, vs[..j + 1]) == done + [pair];
    FormTextSnoc(done, pair);
  }

  /** Appending one pair to a form adds one `&` unless the form was empty. */
  lemma FormTextSnoc(ps: seq<(string, string)>, p: (string, string))
    ensures FormText(ps + [p]) == if ps == [] then EncodePair(p) else FormText(ps) + "&" + EncodePair(p)
  {
    assert EncodePairs(ps + [p]) == EncodePairs(ps) + [EncodePair(p)];
    if ps != [] {
      assert EncodePairs(ps + [p])[..|ps|] == EncodePairs(ps);
    }
  }

  // ---------------------------------------------------------------------------
  // What the form says about the bag

  /** The form of a concatenated iteration order is the concatenation of the forms. */
  lemma {:induction false} FormPairsAppend(values: map<string, Value>, a: seq<string>, b: seq<string>)
    ensures FormPairs(values, a + b) == FormPairs(values, a) + FormPairs(values, b)
    decreases |b|
  {
    if b != [] {
      var b' := b[..|b| - 1];
      var last := b[|b| - 1];
      assert (a + b)[..|a + b| - 1] == a + b';
      assert (a + b)[|a + b| - 1] == last;
      FormPairsAppend(values, a, b');
      var p, q, t := FormPairs(values, a), FormPairs(values, b'), Block(values, last);
      assert FormPairs(values, a + b) == (p + q) + t;
      assert FormPairs(values, b) == q + t;
      AppendAssociative(p, q, t);
    } else {
      assert a + b == a;
    }
  }

  /** The pairs of a form that carry the given key, in order. */
  function PairsFor(ps: seq<(string, string)>, key: string): (r: seq<(string, string)>)
    ensures |r| <= |ps|
  {
    if ps == [] then []
    else PairsFor(ps[..|ps| - 1], key) + (if ps[|ps| - 1].0 == key then [ps[|ps| - 1]] else [])
  }

  lemma {:induction false} PairsForAppend(a: seq<(string, string)>, b: seq<(string, string)>, key: string)
    ensures PairsFor(a + b, key) == PairsFor(a, key) + PairsFor(b, key)
    decreases |b|
  {
    if b != [] {
      var b' := b[..|b| - 1];
      var last := b[|b| - 1];
      assert (a + b)[..|a + b| - 1] == a + b';
      assert (a + b)[|a + b| - 1] == last;
      PairsForAppend(a, b', key);
      var tail := if last.0 == key then [last] else [];
      assert PairsFor(a + b, key) == PairsFor(a + b', key) + tail;
      assert PairsFor(b, key) == PairsFor(b', key) + tail;
      AppendAssociative(PairsFor(a, key), PairsFor(b', key), tail);
    } else {
      assert a + b == a;
    }
  }

  lemma {:induction false} PairsForKeyPairs(k: string, vs: seq<Value>, key: string)
    ensures PairsFor(KeyPairs(k, vs), key) == if k == key then KeyPairs(k, vs) else []
    decreases |vs|
  {
    if vs != [] {
      var init := vs[..|vs| - 1];
      PairsForKeyPairs(k, init, key);
      assert KeyPairs(k, vs)[..|vs| - 1] == KeyPairs(k, init);
    }
  }

  /** Dropping the last key of a list without repetitions leaves one without it. */
  lemma DistinctInit(order: seq<string>)
    requires order != [] && Distinct(order)
    ensures Distinct(order[..|order| - 1])
    ensures order[|order| - 1] !in order[..|order| - 1]
  {
    var init := order[..|order| - 1];
    forall i | 0 <= i < |init|
      ensures init[i] != order[|order| - 1]
    {
      assert init[i] == order[i];
    }
  }

  /**
   * The pairs a key contributes to the form are exactly its own expansion, in order:
   * `key=null` once for null, one pair per element for a collection (none for an empty one),
   * one pair for anything else; and a key that is not iterated contributes nothing.
   */
  lemma {:induction false} FormPairsForKey(values: map<string, Value>, order: seq<string>, key: string)
    requires Distinct(order)
    ensures PairsFor(FormPairs(values, order), key) == if key in order then Block(values, key) else []
  {
    if order != [] {
      var init := order[..|order| - 1];
      var last := order[|order| - 1];
      DistinctInit(order);
      FormPairsForKey(values, init, key);
      var before, block := FormPairs(values, init), Block(values, last);
      assert FormPairs(values, order) == before + block;
      PairsForAppend(before, block, key);
      PairsForBlock(values, last, key);
      InSnoc(order, key);
      if key == last {
        assert PairsFor(before, key) == [];
      } else {
        assert key in order <==> key in init;
      }
    }
  }

  lemma InSnoc(order: seq<string>, key: string)
    requires order != []
    ensures key in order <==> key in order[..|order| - 1] || key == order[|order| - 1]
  {
    assert order == order[..|order| - 1] + [order[|order| - 1]];
  }

  /** A key's own pairs are all it contributes. */
  lemma PairsForBlock(values: map<string, Value>, k: string, key: string)
    ensures PairsFor(Block(values, k), key) == if k == key then Block(values, k) else []
  {
    if k in values {
      PairsForKeyPairs(k, Expand(values[k]), key);
    }
  }

  /** A null value gives exactly one pair, `key=null`. */
  lemma NullValueGivesOnePair(values: map<string, Value>, order: seq<string>, key: string)
    requires IsOrdering(order, values.Keys)
    requires key in values && values[key] == VNull
    ensures PairsFor(FormPairs(values, order), key) == [(key, "null")]
  {
    FormPairsForKey(values, order, key);
  }

  /** A collection gives one pair per element, in the collection's order. */
  lemma CollectionGivesPairPerElement(values: map<string, Value>, order: seq<string>, key: string)
    requires IsOrdering(order, values.Keys)
    requires key in values && values[key].VCollection?
    ensures var ps := PairsFor(FormPairs(values, order), key); var elems := values[key].elems;
      |ps| == |elems| && forall i :: 0 <= i < |elems| ==> ps[i] == (key, ValueText(elems[i]))
  {
    FormPairsForKey(values, order, key);
  }

  /** No iterated key contributes a pair. */
  predicate NoPairs(values: map<string, Value>, order: seq<string>)
  {
    forall i :: 0 <= i < |order| ==> Block(values, order[i]) == []
  }

  lemma NoPairsSnoc(values: map<string, Value>, order: seq<string>)
    requires order != []
    ensures NoPairs(values, order) <==> NoPairs(values, order[..|order| - 1]) && Block(values, order[|order| - 1]) == []
  {
    var init := order[..|order| - 1];
    assert forall i :: 0 <= i < |init| ==> init[i] == order[i];
  }

  /** The form has no pairs exactly when no iterated key contributes any. */
  lemma {:induction false} FormPairsEmptyIff(values: map<string, Value>, order: seq<string>)
    ensures FormPairs(values, order) == [] <==> NoPairs(values, order)
  {
    if order != [] {
      var init := order[..|order| - 1];
      FormPairsEmptyIff(values, init);
      NoPairsSnoc(values, order);
      var before, block := FormPairs(values, init), Block(values, order[|order| - 1]);
      assert FormPairs(values, order) == before + block;
      assert |before + block| == |before| + |block|;
    }
  }

  /** A held key contributes nothing exactly when it holds an empty collection. */
  lemma BlockEmptyIff(values: map<string, Value>, key: string)
    requires key in values
    ensures Block(values, key) == [] <==> values[key] == VCollection([])
  {
    assert |Block(values, key)| == |Expand(values[key])|;
  }

  /** So the form text is empty exactly when every entry is an empty collection; an empty bag gives `""`. */
  lemma FormTextEmptyIff(values: map<string, Value>, order: seq<string>)
    requires IsOrdering(order, values.Keys)
    ensures FormText(FormPairs(values, order)) == "" <==> forall k :: k in values ==> values[k] == VCollection([])
  {
    var ps := FormPairs(values, order);
    FormPairsEmptyIff(values, order);
    if ps != [] {
      FormTextNonEmpty(ps);
    }
    forall k | k in values
      ensures Block(values, k) == [] <==> values[k] == VCollection([])
    {
      BlockEmptyIff(values, k);
    }
    if NoPairs(values, order) {
      forall k | k in values
        ensures Block(values, k) == []
      {
        var i :| 0 <= i < |order| && order[i] == k;
      }
    }
  }

  lemma FormTextNonEmpty(ps: seq<(string, string)>)
    requires ps != []
    ensures FormText(ps) != ""
  {
    FormRoundTrip(ps);
    assert ParseForm("") == Some([]);
  }

  /** An ordering is empty exactly when there is nothing to order. */
  lemma OrderingEmptyIff(o: seq<string>, keys: set<string>)
    requires IsOrdering(o, keys)
    ensures o == [] <==> keys == {}
  {
    if o != [] {
      assert o[0] in keys;
    }
  }

  /** Dropping the last key of an ordering orders the other keys. */
  lemma OrderingInit(o: seq<string>, keys: set<string>)
    requires o != [] && IsOrdering(o, keys)
    ensures IsOrdering(o[..|o| - 1], keys - {o[|o| - 1]})
  {
    DistinctInit(o);
    var init := o[..|o| - 1];
    forall k | k in keys - {o[|o| - 1]}
      ensures k in init
    {
      var i :| 0 <= i < |o| && o[i] == k;
      assert init[i] == k;
    }
  }

  /** Removing the key at position `j` of an ordering orders the other keys. */
  lemma OrderingRemoveAt(o: seq<string>, j: nat, keys: set<string>)
    requires j < |o| && IsOrdering(o, keys)
    ensures IsOrdering(o[..j] + o[j + 1..], keys - {o[j]})
  {
    var rest := o[..j] + o[j + 1..];
    assert forall i :: 0 <= i < j ==> rest[i] == o[i];
    assert forall i :: j <= i < |rest| ==> rest[i] == o[i + 1];
    forall k | k in rest
      ensures k in keys - {o[j]}
    {
      var i :| 0 <= i < |rest| && rest[i] == k;
      if i < j {
        assert o[i] == k;
      } else {
        assert o[i + 1] == k;
      }
    }
    forall k | k in keys - {o[j]}
      ensures k in rest
    {
      var i :| 0 <= i < |o| && o[i] == k;
      if i < j {
        assert rest[i] == k;
      } else {
        assert rest[i - 1] == k;
      }
    }
  }

  /** Taking one key out of the iteration order takes exactly its pairs out of the form. */
  lemma FormPairsRemoveAt(values: map<string, Value>, o: seq<string>, j: nat)
    requires j < |o|
    ensures multiset(FormPairs(values, o)) == multiset(FormPairs(values, o[..j] + o[j + 1..])) + multiset(Block(values, o[j]))
  {
    var front, back := o[..j], o[j + 1..];
    assert o == front + [o[j]] + back;
    FormPairsAppend(values, front + [o[j]], back);
    FormPairsAppend(values, front, [o[j]]);
    FormPairsAppend(values, front, back);
    assert FormPairs(values, [o[j]]) == Block(values, o[j]) by {
      assert [o[j]][..0] == [];
    }
  }

  /**
   * Whatever order the hash map iterates in, the form holds the same pairs:
   * any two orderings of the keys give forms that are permutations of each other.
   */
  lemma {:induction false} FormPairsPermutation(values: map<string, Value>, o1: seq<string>, o2: seq<string>, keys: set<string>)
    requires IsOrdering(o1, keys) && IsOrdering(o2, keys)
    ensures multiset(FormPairs(values, o1)) == multiset(FormPairs(values, o2))
    decreases |o1|
  {
    OrderingEmptyIff(o1, keys);
    OrderingEmptyIff(o2, keys);
    if o1 != [] {
      var x := o1[|o1| - 1];
      assert x in o2;
      var j :| 0 <= j < |o2| && o2[j] == x;
      OrderingInit(o1, keys);
      OrderingRemoveAt(o2, j, keys);
      FormPairsPermutation(values, o1[..|o1| - 1], o2[..j] + o2[j + 1..], keys - {x});
      FormPairsRemoveAt(values, o2, j);
    }
  }

  /** A bag with one entry, not a collection, gives the single pair `key=value`. */
  lemma SingleEntryForm(values: map<string, Value>, order: seq<string>, key: string, v: Value)
    requires IsOrdering(order, values.Keys) && values == map[key := v] && !v.VCollection?
    ensures FormText(FormPairs(values, order)) == Encode(key) + "=" + Encode(ValueText(v))
  {
    assert order == [key] by {
      assert key in values.Keys;
      OrderingEmptyIff(order, values.Keys);
      var last := order[|order| - 1];
      assert last in order;
      OrderingInit(order, values.Keys);
      OrderingEmptyIff(order[..|order| - 1], values.Keys - {last});
      assert order == order[..|order| - 1] + [last];
    }
    assert order[..0] == [];
    assert KeyPairs(key, [v]) == [(key, ValueText(v))];
    assert FormPairs(values, order) == [(key, ValueText(v))];
  }
}
