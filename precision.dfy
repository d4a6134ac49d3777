/** `Precision`: how exactly a geocode locates its address, each with the lower-case value the API uses. */
module GeoPrecision {
  import opened Wrappers
  import opened Sequences

  datatype Precision = ROOFTOP | INTERPOLATED | STREET | GEOMETRY_CENTROID | UNKNOWN

  /** `values()`, in declaration order. */
  function Values(): (r: seq<Precision>)
  {
    [ROOFTOP, INTERPOLATED, STREET, GEOMETRY_CENTROID, UNKNOWN]
  }

  /** The constant's string value (the field `asStringValue()` would return; `Precision` declares no such accessor). */
  function StringValue(p: Precision): string
  {
    match p
    case ROOFTOP => "rooftop"
    case INTERPOLATED => "interpolated"
    case STREET => "street"
    case GEOMETRY_CENTROID => "geometry_centroid"
    case UNKNOWN => "unknown"
  }

  /** `name()`. */
  function Name(p: Precision): string
  {
    match p
    case ROOFTOP => "ROOFTOP"
    case INTERPOLATED => "INTERPOLATED"
    case STREET => "STREET"
    case GEOMETRY_CENTROID => "GEOMETRY_CENTROID"
    case UNKNOWN => "UNKNOWN"
  }

  /**
   * `fromString`: first the constant whose string value it is, then the constant it names;
   * anything else, null included, is `UNKNOWN` rather than an exception.
   */
  function FromString(s: Option<string>): (r: Precision)
  {
    if s.None? then UNKNOWN
    else match FirstMatch(Values(), StringValue, s.value)
      case Some(p) => p
      case None =>
        match FirstMatch(Values(), Name, s.value)
        case Some(p) => p
        case None => UNKNOWN
  }

  /** No two constants share a string value or a name. */
  lemma StringValuesDistinct(p: Precision, q: Precision)
    ensures StringValue(p) == StringValue(q) ==> p == q
    ensures Name(p) == Name(q) ==> p == q
  {
  }

  /** String values start with a lower-case letter and names with an upper-case one, so none is the other. */
  lemma ValueIsNotName(p: Precision, q: Precision)
    ensures StringValue(p) != Name(q)
  {
    assert 'a' <= StringValue(p)[0] <= 'z';
    assert 'A' <= Name(q)[0] <= 'Z';
  }

  /** Reading a constant's string value back gives the constant. */
  lemma FromStringValue(p: Precision)
    ensures FromString(Some(StringValue(p))) == p
  {
    var r := FirstMatch(Values(), StringValue, StringValue(p));
    assert Values()[IndexOf(p)] == p;
    StringValuesDistinct(p, r.value);
  }

  /** Reading a constant's name back gives the constant. */
  lemma FromStringName(p: Precision)
    ensures FromString(Some(Name(p))) == p
  {
    forall q | q in Values()
      ensures StringValue(q) != Name(p)
    {
      ValueIsNotName(q, p);
    }
    var r := FirstMatch(Values(), Name, Name(p));
    assert Values()[IndexOf(p)] == p;
    StringValuesDistinct(p, r.value);
  }

  /** The result is a known precision exactly when the text is a known precision's value or name. */
  lemma FromStringKnownIff(s: Option<string>)
    ensures FromString(s) != UNKNOWN <==>
      s.Some? && exists p :: p != UNKNOWN && (s.value == StringValue(p) || s.value == Name(p))
  {
    if s.Some? && exists p :: p != UNKNOWN && (s.value == StringValue(p) || s.value == Name(p)) {
      var p :| p != UNKNOWN && (s.value == StringValue(p) || s.value == Name(p));
      if s.value == StringValue(p) {
        FromStringValue(p);
      } else {
        FromStringName(p);
      }
    }
  }

  /** The position of a constant in `values()`. */
  function IndexOf(p: Precision): (i: nat)
    ensures i < |Values()| && Values()[i] == p
  {
    match p
    case ROOFTOP => 0
    case INTERPOLATED => 1
    case STREET => 2
    case GEOMETRY_CENTROID => 3
    case UNKNOWN => 4
  }
}
