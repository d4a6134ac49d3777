/** `Provider`: the geocoding data sources, each with the lower-case value the API uses. */
module GeoProvider {
  import opened Wrappers
  import opened Sequences

  datatype Provider = NAD | OPENADDRESSES | OPENSTREETMAP | POSTGIS | REGRID | TIGER | UNKNOWN

  /** `values()`, in declaration order. */
  function Values(): (r: seq<Provider>)
  {
    [NAD, OPENADDRESSES, OPENSTREETMAP, POSTGIS, REGRID, TIGER, UNKNOWN]
  }

  /** `asStringValue()`. */
  function StringValue(p: Provider): string
  {
    match p
    case NAD => "nad"
    case OPENADDRESSES => "openaddresses"
    case OPENSTREETMAP => "openstreetmap"
    case POSTGIS => "postgis"
    case REGRID => "regrid"
    case TIGER => "tiger"
    case UNKNOWN => "unknown"
  }

  /** `name()`. */
  function Name(p: Provider): string
  {
    match p
    case NAD => "NAD"
    case OPENADDRESSES => "OPENADDRESSES"
    case OPENSTREETMAP => "OPENSTREETMAP"
    case POSTGIS => "POSTGIS"
    case REGRID => "REGRID"
    case TIGER => "TIGER"
    case UNKNOWN => "UNKNOWN"
  }

  /**
   * `fromString`: first the constant whose string value it is, then the constant it names;
   * anything else, null included, is `UNKNOWN` rather than an exception.
   */
  function FromString(s: Option<string>): (r: Provider)
  {
    if s.None? then UNKNOWN
    else match FirstMatch(Values(), StringValue, s.value)
      case Some(p) => p
      case None =>
        match FirstMatch(Values(), Name, s.value)
        case Some(p) => p
        case None => UNKNOWN
  }

  /** No two constants share a string value or a name. */
  lemma StringValuesDistinct(p: Provider, q: Provider)
    ensures StringValue(p) == StringValue(q) ==> p == q
    ensures Name(p) == Name(q) ==> p == q
  {
  }

  /** String values start with a lower-case letter and names with an upper-case one, so none is the other. */
  lemma ValueIsNotName(p: Provider, q: Provider)
    ensures StringValue(p) != Name(q)
  {
    assert 'a' <= StringValue(p)[0] <= 'z';
    assert 'A' <= Name(q)[0] <= 'Z';
  }

  /** Reading a constant's string value back gives the constant. */
  lemma FromStringValue(p: Provider)
    ensures FromString(Some(StringValue(p))) == p
  {
    var r := FirstMatch(Values(), StringValue, StringValue(p));
    assert Values()[IndexOf(p)] == p;
    StringValuesDistinct(p, r.value);
  }

  /** Reading a constant's name back gives the constant. */
  lemma FromStringName(p: Provider)
    ensures FromString(Some(Name(p))) == p
  {
    forall q | q in Values()
      ensures StringValue(q) != Name(p)
    {
      ValueIsNotName(q, p);
    }
    var r := FirstMatch(Values(), Name, Name(p));
    assert Values()[IndexOf(p)] == p;
    StringValuesDistinct(p, r.value);
  }

  /** The result is a known provider exactly when the text is a known provider's value or name. */
  lemma FromStringKnownIff(s: Option<string>)
    ensures FromString(s) != UNKNOWN <==>
      s.Some? && exists p :: p != UNKNOWN && (s.value == StringValue(p) || s.value == Name(p))
  {
    if s.Some? && exists p :: p != UNKNOWN && (s.value == StringValue(p) || s.value == Name(p)) {
      var p :| p != UNKNOWN && (s.value == StringValue(p) || s.value == Name(p));
      if s.value == StringValue(p) {
        FromStringValue(p);
      } else {
        FromStringName(p);
      }
    }
  }

  /** The position of a constant in `values()`. */
  function IndexOf(p: Provider): (i: nat)
    ensures i < |Values()| && Values()[i] == p
  {
    match p
    case NAD => 0
    case OPENADDRESSES => 1
    case OPENSTREETMAP => 2
    case POSTGIS => 3
    case REGRID => 4
    case TIGER => 5
    case UNKNOWN => 6
  }
}
