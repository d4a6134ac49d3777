/**
 * `java.util.UUID` as the SDK uses it: `UUID.fromString` on identifiers read from
 * responses or passed to setters, and `toString` when an identifier is put into a path.
 */
module Uuids {
  import opened Wrappers
  import opened JavaText

  predicate IsHexChar(c: char)
  {
    '0' <= c <= '9' || 'a' <= c <= 'f' || 'A' <= c <= 'F'
  }

  predicate IsDashPosition(i: int)
  {
    i == 8 || i == 13 || i == 18 || i == 23
  }

  /** The canonical 8-4-4-4-12 hexadecimal form. */
  predicate IsUuidText(s: string)
  {
    |s| == 36 && forall i :: 0 <= i < 36 ==> if IsDashPosition(i) then s[i] == '-' else IsHexChar(s[i])
  }

  /** A UUID, held as the text `UUID.toString()` gives: canonical form, lower-case digits. */
  datatype Uuid = Uuid(text: string)

  predicate IsLowerHexText(s: string)
  {
    IsUuidText(s) && forall i :: 0 <= i < |s| ==> !('A' <= s[i] <= 'Z')
  }

  /** `UUID.fromString(s)`; `None` stands for the `IllegalArgumentException` it throws. */
  function Parse(s: string): (r: Option<Uuid>)
    ensures r.Some? <==> IsUuidText(s)
    ensures r.Some? ==> r.value.text == Lower(s) && IsLowerHexText(r.value.text)
  {
    if IsUuidText(s) then Some(Uuid(Lower(s))) else None
  }

  /** Printing a parsed UUID and parsing the text again gives the same UUID. */
  lemma ParsePrintRoundTrip(s: string)
    requires IsUuidText(s)
    ensures Parse(Parse(s).value.text) == Parse(s)
  {
    var t := Lower(s);
    assert Lower(t) == t;
  }

  /** Two spellings denote the same UUID exactly when they agree up to letter case. */
  lemma ParseIgnoresCase(s: string, t: string)
    requires IsUuidText(s) && IsUuidText(t)
    ensures Parse(s) == Parse(t) <==> Lower(s) == Lower(t)
  {
  }

  /** String concatenation with a possibly-null UUID: `"null"` when it is null. */
  function NullableText(u: Option<Uuid>): (r: string)
    ensures u.None? ==> r == "null"
    ensures u.Some? ==> r == u.value.text
  {
    match u
    case None => "null"
    case Some(id) => id.text
  }
}
