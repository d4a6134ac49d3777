/**
 * The few pieces of `java.lang` text handling the SDK relies on:
 * `String.valueOf` of integers, `String.join`, and ASCII case mapping.
 */
module JavaText {
  import opened Wrappers

  /** The decimal digit for `d`. */
  function DigitChar(d: nat): (c: char)
    requires d < 10
    ensures '0' <= c <= '9'
  {
    "0123456789"[d]
  }

  /** Decimal digits of a natural number, most significant first, without leading zeros. */
  function NatText(n: nat): (r: string)
    decreases n
  {
    if n < 10 then [DigitChar(n)] else NatText(n / 10) + [DigitChar(n % 10)]
  }

  /** `String.valueOf(n)` for a Java `int` or `long`. */
  function IntText(n: int): string
  {
    if n < 0 then "-" + NatText(-n) else NatText(n)
  }


  /** `String.join(sep, parts)`. */
  function Join(sep: string, parts: seq<string>): (r: string)
    ensures parts == [] ==> r == ""
    ensures |parts| == 1 ==> r == parts[0]
  {
    if parts == [] then ""
    else if |parts| == 1 then parts[0]
    else Join(sep, parts[..|parts| - 1]) + sep + parts[|parts| - 1]
  }

  /** `Character.toUpperCase` restricted to ASCII letters. */
  function UpperChar(c: char): char
  {
    if 'a' <= c <= 'z' then (c as int - 32) as char else c
  }

  /** `Character.toLowerCase` restricted to ASCII letters. */
  function LowerChar(c: char): char
  {
    if 'A' <= c <= 'Z' then (c as int + 32) as char else c
  }

  function Upper(s: string): (r: string)
    ensures |r| == |s| && forall i :: 0 <= i < |s| ==> r[i] == UpperChar(s[i])
  {
    if s == [] then [] else [UpperChar(s[0])] + Upper(s[1..])
  }

  function Lower(s: string): (r: string)
    ensures |r| == |s| && forall i :: 0 <= i < |s| ==> r[i] == LowerChar(s[i])
  {
    if s == [] then [] else [LowerChar(s[0])] + Lower(s[1..])
  }

  predicate IsUpperName(s: string)
  {
    forall i :: 0 <= i < |s| ==> s[i] == '_' || 'A' <= s[i] <= 'Z' || '0' <= s[i] <= '9'
  }

  /** Upper-casing leaves a name of capitals, digits and underscores unchanged. */
  lemma UpperOfUpperName(s: string)
    requires IsUpperName(s)
    ensures Upper(s) == s
  {
  }

  /** Upper-casing the lower-case spelling of such a name gives the name back. */
  lemma UpperOfLowerName(s: string)
    requires IsUpperName(s)
    ensures Upper(Lower(s)) == s
  {
  }

  /** `String.valueOf(s)` for a string reference that may be null. */
  function StringOf(s: Option<string>): (r: string)
    ensures s.Some? ==> r == s.value
    ensures s.None? ==> r == "null"
  {
    match s
    case Some(t) => t
    case None => "null"
  }
}
