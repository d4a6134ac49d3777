/**
 * `ChannelType`: the kinds of dashboard channel. Reading one back from text ignores letter case
 * and, unlike the geographic enums, has no fallback constant.
 */
module ChannelTypes {
  import opened Wrappers
  import opened JavaText
  import opened Errors

  datatype ChannelType = SIMPLE | SSL | PING | HTTP | DURATION

  /** `name()`. */
  function Name(t: ChannelType): (r: string)
  {
    match t
    case SIMPLE => "SIMPLE"
    case SSL => "SSL"
    case PING => "PING"
    case HTTP => "HTTP"
    case DURATION => "DURATION"
  }

  /** Every name is spelled in capitals only. */
  lemma NameIsUpper(t: ChannelType)
    ensures IsUpperName(Name(t))
  {
  }

  /** `valueOf(s)`: the constant named exactly `s`, or an `IllegalArgumentException`. */
  function ValueOf(s: string): (r: Result<ChannelType, Error>)
    ensures r.Success? ==> Name(r.value) == s
    ensures r.Failure? ==> r.error == Thrown(ConstantFault) && forall t :: Name(t) != s
  {
    if s == "SIMPLE" then Success(SIMPLE)
    else if s == "SSL" then Success(SSL)
    else if s == "PING" then Success(PING)
    else if s == "HTTP" then Success(HTTP)
    else if s == "DURATION" then Success(DURATION)
    else Failure(Thrown(ConstantFault))
  }

  /**
   * `fromString(s)`: a null text throws a `NullPointerException`; otherwise the text is
   * upper-cased and must then be one of the names exactly.
   */
  function FromString(s: Option<string>): (r: Result<ChannelType, Error>)
    ensures s.None? ==> r == Failure(Thrown(NullFault))
    ensures s.Some? ==> (r.Success? <==> exists t :: Name(t) == Upper(s.value))
    ensures s.Some? && r.Success? ==> Name(r.value) == Upper(s.value)
    ensures s.Some? && r.Failure? ==> r.error == Thrown(ConstantFault)
  {
    match s
    case None => Failure(Thrown(NullFault))
    case Some(text) => ValueOf(Upper(text))
  }

  /** Upper-casing after lower-casing is the same as upper-casing alone. */
  lemma UpperOfLower(s: string)
    ensures Upper(Lower(s)) == Upper(s)
  {
    assert forall i :: 0 <= i < |s| ==> UpperChar(LowerChar(s[i])) == UpperChar(s[i]);
  }

  /** Upper-casing twice is upper-casing once. */
  lemma UpperIdempotent(s: string)
    ensures Upper(Upper(s)) == Upper(s)
  {
    assert forall i :: 0 <= i < |s| ==> UpperChar(UpperChar(s[i])) == UpperChar(s[i]);
  }

  /**
   * Matching ignores letter case: a text, its upper-case and its lower-case spelling all give
   * the same answer, whether a constant or the exception.
   */
  lemma FromStringIgnoresCase(s: string)
    ensures FromString(Some(Lower(s))) == FromString(Some(s))
    ensures FromString(Some(Upper(s))) == FromString(Some(s))
  {
    UpperOfLower(s);
    UpperIdempotent(s);
  }

  /** Both the name of a constant and its lower-case spelling read back as that constant. */
  lemma FromStringOfName(t: ChannelType)
    ensures FromString(Some(Name(t))) == Success(t)
    ensures FromString(Some(Lower(Name(t)))) == Success(t)
  {
    NameIsUpper(t);
    UpperOfUpperName(Name(t));
    UpperOfLowerName(Name(t));
  }

  /** No fallback: a text naming no constant, such as `"unknown"`, is refused. */
  lemma FromStringRefusesUnknown()
    ensures FromString(Some("unknown")) == Failure(Thrown(ConstantFault))
    ensures FromString(Some("")) == Failure(Thrown(ConstantFault))
  {
    assert Upper("unknown") == "UNKNOWN";
  }
}
