/**
 * `application/x-www-form-urlencoded` text as `java.net.URLEncoder.encode(s, "UTF-8")`
 * writes it (section 17.13.4.1 of HTML 4.01), and the reading that undoes it.
 */
module UrlEncoding {
  import opened Wrappers
  import opened JavaText
  import opened Sequences

  /** The characters the encoder leaves as they are. */
  predicate IsUnreserved(c: char)
  {
    'a' <= c <= 'z' || 'A' <= c <= 'Z' || '0' <= c <= '9' || c == '.' || c == '-' || c == '*' || c == '_'
  }

  predicate IsByte(b: int)
  {
    0 <= b < 256
  }

  /** The UTF-8 bytes of one character. */
  function Utf8(c: char): (r: seq<int>)
    ensures 1 <= |r| <= 4
    ensures forall i :: 0 <= i < |r| ==> IsByte(r[i])
  {
    var n := c as int;
    if n < 0x80 then [n]
    else if n < 0x800 then [0xC0 + n / 64, 0x80 + n % 64]
    else if n < 0x1_0000 then [0xE0 + n / 4096, 0x80 + n / 64 % 64, 0x80 + n % 64]
    else [0xF0 + n / 0x4_0000, 0x80 + n / 4096 % 64, 0x80 + n / 64 % 64, 0x80 + n % 64]
  }

  /** How many bytes a UTF-8 sequence with this first byte has; 0 when no sequence starts so. */
  function SequenceLength(lead: int): nat
  {
    if 0 <= lead < 0x80 then 1
    else if 0xC0 <= lead < 0xE0 then 2
    else if 0xE0 <= lead < 0xF0 then 3
    else if 0xF0 <= lead < 0xF8 then 4
    else 0
  }

  /** The code point a UTF-8 sequence stands for. */
  function Utf8Value(bs: seq<int>): int
    requires 1 <= |bs| <= 4
  {
    if |bs| == 1 then bs[0]
    else if |bs| == 2 then (bs[0] - 0xC0) * 64 + (bs[1] - 0x80)
    else if |bs| == 3 then (bs[0] - 0xE0) * 4096 + (bs[1] - 0x80) * 64 + (bs[2] - 0x80)
    else (bs[0] - 0xF0) * 0x4_0000 + (bs[1] - 0x80) * 4096 + (bs[2] - 0x80) * 64 + (bs[3] - 0x80)
  }

  /** A character's UTF-8 bytes announce their own length and decode back to the character. */
  lemma Utf8Decodes(c: char)
    ensures SequenceLength(Utf8(c)[0]) == |Utf8(c)|
    ensures Utf8Value(Utf8(c)) == c as int
  {
    var n := c as int;
    if n < 0x80 {
    } else if n < 0x800 {
      Utf8Two(n);
    } else if n < 0x1_0000 {
      Utf8Three(n);
    } else {
      Utf8Four(n);
    }
  }

  lemma Utf8Two(n: int)
    requires 0x80 <= n < 0x800
    ensures var bs := [0xC0 + n / 64, 0x80 + n % 64]; SequenceLength(bs[0]) == 2 && Utf8Value(bs) == n
  {
    assert n == n / 64 * 64 + n % 64;
  }

  lemma Utf8Three(n: int)
    requires 0x800 <= n < 0x1_0000
    ensures var bs := [0xE0 + n / 4096, 0x80 + n / 64 % 64, 0x80 + n % 64];
      SequenceLength(bs[0]) == 3 && Utf8Value(bs) == n
  {
    var q, r := n / 64, n % 64;
    assert n == q * 64 + r;
    assert q == n / 4096 * 64 + q % 64;
  }

  lemma Utf8Four(n: int)
    requires 0x1_0000 <= n < 0x11_0000
    ensures var bs := [0xF0 + n / 0x4_0000, 0x80 + n / 4096 % 64, 0x80 + n / 64 % 64, 0x80 + n % 64];
      SequenceLength(bs[0]) == 4 && Utf8Value(bs) == n
  {
    var q, r := n / 64, n % 64;
    var q2 := n / 4096;
    assert n == q * 64 + r;
    assert q == q2 * 64 + q % 64;
    assert q2 == n / 0x4_0000 * 64 + q2 % 64;
  }

  function HexDigitUpper(d: nat): (c: char)
    requires d < 16
    ensures IsUnreserved(c)
  {
    if d < 10 then ('0' as int + d) as char else ('A' as int + d - 10) as char
  }

  lemma HexDigitValue(d: nat)
    requires d < 16
    ensures HexValue(HexDigitUpper(d)) == Some(d)
  {
  }

  /** The value of a hexadecimal digit of either case. */
  function HexValue(c: char): Option<nat>
  {
    if '0' <= c <= '9' then Some(c as int - '0' as int)
    else if 'A' <= c <= 'F' then Some(c as int - 'A' as int + 10)
    else if 'a' <= c <= 'f' then Some(c as int - 'a' as int + 10)
    else None
  }

  /** The characters an encoded text is made of. */
  predicate IsEncodedChar(c: char)
  {
    IsUnreserved(c) || c == '+' || c == '%'
  }

  predicate IsEncodedText(s: string)
  {
    forall i :: 0 <= i < |s| ==> IsEncodedChar(s[i])
  }

  lemma EncodedTextConcat(a: string, b: string)
    requires IsEncodedText(a) && IsEncodedText(b)
    ensures IsEncodedText(a + b)
  {
    forall i | 0 <= i < |a + b|
      ensures IsEncodedChar((a + b)[i])
    {
      if i < |a| {
        assert (a + b)[i] == a[i];
      } else {
        assert (a + b)[i] == b[i - |a|];
      }
    }
  }

  /** One byte written as `%XY` with upper-case digits. */
  function Escape(b: int): (r: string)
    requires IsByte(b)
    ensures |r| == 3 && r[0] == '%' && IsUnreserved(r[1]) && IsUnreserved(r[2])
  {
    ['%', HexDigitUpper(b / 16), HexDigitUpper(b % 16)]
  }

  function EscapeAll(bs: seq<int>): (r: string)
    requires forall i :: 0 <= i < |bs| ==> IsByte(bs[i])
    ensures |r| == 3 * |bs|
  {
    if bs == [] then "" else Escape(bs[0]) + EscapeAll(bs[1..])
  }

  lemma {:induction false} EscapeAllEncoded(bs: seq<int>)
    requires forall i :: 0 <= i < |bs| ==> IsByte(bs[i])
    ensures IsEncodedText(EscapeAll(bs))
  {
    if bs != [] {
      EscapeAllEncoded(bs[1..]);
      EncodedTextConcat(Escape(bs[0]), EscapeAll(bs[1..]));
    }
  }

  /** How the encoder writes one character. */
  function EncodeChar(c: char): string
  {
    if IsUnreserved(c) then [c]
    else if c == ' ' then "+"
    else EscapeAll(Utf8(c))
  }

  /** `URLEncoder.encode(s, "UTF-8")`. */
  function Encode(s: string): string
  {
    if s == [] then [] else EncodeChar(s[0]) + Encode(s[1..])
  }

  /** The encoder writes only unreserved characters, `+` and `%`. */
  lemma {:induction false} EncodeIsEncodedText(s: string)
    ensures IsEncodedText(Encode(s))
  {
    if s != [] {
      EncodeIsEncodedText(s[1..]);
      var c := s[0];
      if !IsUnreserved(c) && c != ' ' {
        EscapeAllEncoded(Utf8(c));
      }
      EncodedTextConcat(EncodeChar(c), Encode(s[1..]));
    }
  }

  /** An encoded key or value never contains the separators of the form. */
  lemma EncodedHasNoSeparator(s: string)
    ensures '&' !in Encode(s) && '=' !in Encode(s)
  {
    EncodeIsEncodedText(s);
  }

  // ---------------------------------------------------------------------------
  // Reading encoded text back (what `URLDecoder.decode(s, "UTF-8")` does on such text)

  /** The `n` bytes written as `%XY` escapes at the front of `s`. */
  function ReadEscapes(s: string, n: nat): (r: Option<seq<int>>)
    ensures r.Some? ==> |r.value| == n && |s| >= 3 * n
    decreases n
  {
    if n == 0 then Some([])
    else if |s| < 3 || s[0] != '%' || HexValue(s[1]).None? || HexValue(s[2]).None? then None
    else
      match ReadEscapes(s[3..], n - 1)
      case None => None
      case Some(rest) => Some([HexValue(s[1]).value * 16 + HexValue(s[2]).value] + rest)
  }

  predicate IsScalar(n: int)
  {
    0 <= n < 0xD800 || 0xE000 <= n < 0x11_0000
  }

  function Prepend(c: char, r: Option<string>): Option<string>
  {
    match r
    case None => None
    case Some(t) => Some([c] + t)
  }

  /** Undoes `Encode`: `+` is a space and a run of escapes is one character's UTF-8 bytes. */
  function Decode(s: string): Option<string>
    decreases |s|
  {
    if s == [] then Some([])
    else if s[0] == '+' then Prepend(' ', Decode(s[1..]))
    else if s[0] != '%' then Prepend(s[0], Decode(s[1..]))
    else
      match ReadEscapes(s, 1)
      case None => None
      case Some(lead) =>
        var n := SequenceLength(lead[0]);
        if n == 0 then None
        else
          match ReadEscapes(s, n)
          case None => None
          case Some(bs) =>
            var cp := Utf8Value(bs);
            if IsScalar(cp) then Prepend(cp as char, Decode(s[3 * n..])) else None
  }

  lemma ReadOneEscape(b: int, u: string)
    requires IsByte(b)
    ensures var t := Escape(b) + u;
      |t| >= 3 && t[0] == '%' && HexValue(t[1]) == Some(b / 16) && HexValue(t[2]) == Some(b % 16) && t[3..] == u
  {
    HexDigitValue(b / 16);
    HexDigitValue(b % 16);
    assert (Escape(b) + u)[3..] == u;
  }

  /** A well-formed escape in front of `n - 1` more reads as its byte followed by theirs. */
  lemma ReadEscapesFront(t: string, n: nat, tail: seq<int>)
    requires n > 0 && |t| >= 3 && t[0] == '%' && HexValue(t[1]).Some? && HexValue(t[2]).Some?
    requires ReadEscapes(t[3..], n - 1) == Some(tail)
    ensures ReadEscapes(t, n) == Some([HexValue(t[1]).value * 16 + HexValue(t[2]).value] + tail)
  {
  }

  /** An escape written in front of text that holds `n - 1` more reads as its byte followed by theirs. */
  lemma ReadEscapesAfterEscape(b: int, u: string, n: nat, tail: seq<int>)
    requires IsByte(b) && n > 0
    requires ReadEscapes(u, n - 1) == Some(tail)
    ensures ReadEscapes(Escape(b) + u, n) == Some([b] + tail)
  {
    var t := Escape(b) + u;
    ReadOneEscape(b, u);
    ReadEscapesFront(t, n, tail);
    assert HexValue(t[1]).value * 16 + HexValue(t[2]).value == b;
  }

  lemma {:induction false} ReadEscapesOfEscapeAll(bs: seq<int>, rest: string)
    requires forall i :: 0 <= i < |bs| ==> IsByte(bs[i])
    ensures ReadEscapes(EscapeAll(bs) + rest, |bs|) == Some(bs)
  {
    if bs != [] {
      var b, more := bs[0], bs[1..];
      var u := EscapeAll(more) + rest;
      assert EscapeAll(bs) + rest == Escape(b) + u;
      ReadEscapesOfEscapeAll(more, rest);
      ReadEscapesAfterEscape(b, u, |bs|, more);
      assert bs == [b] + more;
    }
  }

  /** Decoding an encoded character followed by more text reads exactly that character first. */
  lemma DecodeEncodedChar(c: char, rest: string)
    ensures Decode(EncodeChar(c) + rest) == Prepend(c, Decode(rest))
  {
    var t := EncodeChar(c) + rest;
    if IsUnreserved(c) {
      assert t[0] == c && t[1..] == rest;
    } else if c == ' ' {
      assert t[0] == '+' && t[1..] == rest;
    } else {
      DecodeEscapedChar(c, rest);
    }
  }

  /** A character written as escapes of its UTF-8 bytes decodes back to itself. */
  lemma DecodeEscapedChar(c: char, rest: string)
    requires !IsUnreserved(c) && c != ' '
    ensures Decode(EscapeAll(Utf8(c)) + rest) == Prepend(c, Decode(rest))
  {
    Utf8Decodes(c);
    DecodeEscapedBytes(Utf8(c), rest);
  }

  /** The escapes of a whole UTF-8 sequence decode to its code point. */
  lemma DecodeEscapedBytes(bs: seq<int>, rest: string)
    requires 1 <= |bs| <= 4 && forall i :: 0 <= i < |bs| ==> IsByte(bs[i])
    requires SequenceLength(bs[0]) == |bs| && IsScalar(Utf8Value(bs))
    ensures Decode(EscapeAll(bs) + rest) == Prepend(Utf8Value(bs) as char, Decode(rest))
  {
    var t := EscapeAll(bs) + rest;
    ReadEscapesOfEscapeAll(bs, rest);
    EscapeAllCons(bs, rest);
    ReadFirstEscape(bs[0], EscapeAll(bs[1..]) + rest);
    assert t[3 * |bs|..] == rest;
    DecodeEscapes(t, bs);
  }

  /** A run of escapes is its first escape followed by the others. */
  lemma EscapeAllCons(bs: seq<int>, rest: string)
    requires bs != [] && forall i :: 0 <= i < |bs| ==> IsByte(bs[i])
    ensures EscapeAll(bs) + rest == Escape(bs[0]) + (EscapeAll(bs[1..]) + rest)
  {
    var e, r := Escape(bs[0]), EscapeAll(bs[1..]);
    assert EscapeAll(bs) == e + r;
    AppendAssociative(e, r, rest);
  }

  /** An escape in front of any text reads as its byte. */
  lemma ReadFirstEscape(b: int, u: string)
    requires IsByte(b)
    ensures var t := Escape(b) + u; |t| >= 3 && t[0] == '%' && ReadEscapes(t, 1) == Some([b])
  {
    ReadEscapesAfterEscape(b, u, 1, []);
    assert [b] + [] == [b];
  }

  /** Text that starts with the escapes of a whole UTF-8 sequence decodes to its code point first. */
  lemma DecodeEscapes(t: string, bs: seq<int>)
    requires 1 <= |bs| <= 4 && |t| >= 3 && t[0] == '%'
    requires ReadEscapes(t, 1) == Some([bs[0]]) && ReadEscapes(t, |bs|) == Some(bs)
    requires SequenceLength(bs[0]) == |bs| && IsScalar(Utf8Value(bs))
    ensures Decode(t) == Prepend(Utf8Value(bs) as char, Decode(t[3 * |bs|..]))
  {
  }

  /** Decoding undoes encoding, for every string. */
  lemma {:induction false} DecodeEncode(s: string)
    ensures Decode(Encode(s)) == Some(s)
  {
    if s != [] {
      var c, more := s[0], s[1..];
      assert Encode(s) == EncodeChar(c) + Encode(more);
      DecodeEncodedChar(c, Encode(more));
      DecodeEncode(more);
      assert [c] + more == s;
    }
  }

  /** Encoding is injective: different texts never encode alike. */
  lemma EncodeInjective(s: string, t: string)
    requires Encode(s) == Encode(t)
    ensures s == t
  {
    DecodeEncode(s);
    DecodeEncode(t);
  }

  // ---------------------------------------------------------------------------
  // Whole forms

  /** One `key=value` pair of a form. */
  function EncodePair(p: (string, string)): (r: string)
    ensures '&' !in r
  {
    EncodedHasNoSeparator(p.0);
    EncodedHasNoSeparator(p.1);
    Encode(p.0) + "=" + Encode(p.1)
  }

  function EncodePairs(ps: seq<(string, string)>): (r: seq<string>)
    ensures |r| == |ps| && forall i :: 0 <= i < |ps| ==> r[i] == EncodePair(ps[i])
  {
    if ps == [] then [] else [EncodePair(ps[0])] + EncodePairs(ps[1..])
  }

  /** A form: its pairs, each `key=value`, separated by single `&`s. */
  function FormText(ps: seq<(string, string)>): string
  {
    Join("&", EncodePairs(ps))
  }

  /** The position of the last `c` in `s`. */
  function LastIndexOf(s: string, c: char): (i: nat)
    requires c in s
    ensures i < |s| && s[i] == c && c !in s[i + 1..]
  {
    if s[|s| - 1] == c then |s| - 1 else LastIndexOf(s[..|s| - 1], c)
  }

  /** The position of the first `c` in `s`. */
  function FirstIndexOf(s: string, c: char): (i: nat)
    requires c in s
    ensures i < |s| && s[i] == c && c !in s[..i]
  {
    if s[0] == c then 0 else 1 + FirstIndexOf(s[1..], c)
  }

  /** `s` cut at every `c`. */
  function Split(s: string, c: char): (r: seq<string>)
    ensures |r| >= 1
    decreases |s|
  {
    if c !in s then [s]
    else
      var i := LastIndexOf(s, c);
      Split(s[..i], c) + [s[i + 1..]]
  }

  /** Reads a form back into its pairs. */
  function ParseForm(s: string): Option<seq<(string, string)>>
  {
    if s == "" then Some([]) else ParsePairs(Split(s, '&'))
  }

  function ParsePairs(segments: seq<string>): Option<seq<(string, string)>>
  {
    if segments == [] then Some([])
    else
      var seg := segments[0];
      if '=' !in seg then None
      else
        var i := FirstIndexOf(seg, '=');
        match (Decode(seg[..i]), Decode(seg[i + 1..]), ParsePairs(segments[1..]))
        case (Some(k), Some(v), Some(rest)) => Some([(k, v)] + rest)
        case _ => None
  }

  lemma {:induction false} SplitJoin(parts: seq<string>, c: char)
    requires |parts| >= 1
    requires forall i :: 0 <= i < |parts| ==> c !in parts[i]
    ensures Split(Join([c], parts), c) == parts
  {
    if |parts| > 1 {
      var init := parts[..|parts| - 1];
      var prefix := Join([c], init);
      var s := Join([c], parts);
      assert s == prefix + [c] + parts[|parts| - 1];
      assert s[|prefix|] == c;
      var i := LastIndexOf(s, c);
      assert i == |prefix|;
      assert s[..i] == prefix;
      assert s[i + 1..] == parts[|parts| - 1];
      SplitJoin(init, c);
      assert init + [parts[|parts| - 1]] == parts;
    }
  }

  lemma ParsePair(p: (string, string))
    ensures '=' in EncodePair(p)
    ensures var seg := EncodePair(p); var i := FirstIndexOf(seg, '=');
      Decode(seg[..i]) == Some(p.0) && Decode(seg[i + 1..]) == Some(p.1)
  {
    var seg := EncodePair(p);
    var k := Encode(p.0);
    EncodedHasNoSeparator(p.0);
    assert seg[|k|] == '=';
    var i := FirstIndexOf(seg, '=');
    assert i == |k|;
    assert seg[..i] == k;
    assert seg[i + 1..] == Encode(p.1);
    DecodeEncode(p.0);
    DecodeEncode(p.1);
  }

  lemma {:induction false} ParsePairsOfEncoded(ps: seq<(string, string)>)
    ensures ParsePairs(EncodePairs(ps)) == Some(ps)
  {
    if ps != [] {
      ParsePair(ps[0]);
      assert EncodePairs(ps)[1..] == EncodePairs(ps[1..]);
      ParsePairsOfEncoded(ps[1..]);
      assert [ps[0]] + ps[1..] == ps;
    }
  }

  /** Reading a form back gives exactly the pairs it was written from, in order. */
  lemma FormRoundTrip(ps: seq<(string, string)>)
    ensures ParseForm(FormText(ps)) == Some(ps)
  {
    if ps != [] {
      var parts := EncodePairs(ps);
      SplitJoin(parts, '&');
      ParsePair(ps[0]);
      assert FormText(ps) != "" by {
        JoinContains(parts, 0);
      }
      ParsePairsOfEncoded(ps);
    }
  }

  lemma {:induction false} JoinContains(parts: seq<string>, j: nat)
    requires j < |parts| && '=' in parts[j]
    ensures '=' in Join("&", parts)
  {
    if |parts| > 1 && j < |parts| - 1 {
      JoinContains(parts[..|parts| - 1], j);
      var a := Join("&", parts[..|parts| - 1]);
      var x :| 0 <= x < |a| && a[x] == '=';
      assert Join("&", parts)[x] == '=';
    } else if |parts| > 1 {
      var b := parts[j];
      var x :| 0 <= x < |b| && b[x] == '=';
      var a := Join("&", parts[..|parts| - 1]);
      assert Join("&", parts)[|a| + 1 + x] == '=';
    }
  }
}
