/**
 * The parts of Go's net/url that the image proxy relies on: QueryEscape (as used by url.Values.Encode),
 * its inverse, query parsing, and url.URL.String for a URL with no scheme. A Go string is a byte
 * sequence; a model string stands for its UTF-8 encoding.
 */
module Url {
  import opened Wrappers

  newtype byte = x: int | 0 <= x < 256

  /** The UTF-8 encoding of one Unicode scalar value. */
  function Utf8(c: char): (bs: seq<byte>)
    ensures 1 <= |bs| <= 4
    ensures (c as int < 0x80) <==> |bs| == 1
    ensures c as int < 0x80 ==> bs == [c as int as byte]
    ensures c as int >= 0x80 ==> forall i :: 0 <= i < |bs| ==> bs[i] >= 0x80
  {
    var n := c as int;
    if n < 0x80 then [n as byte]
    else if n < 0x800 then [(0xC0 + n / 64) as byte, (0x80 + n % 64) as byte]
    else if n < 0x10000 then [(0xE0 + n / 4096) as byte, (0x80 + (n / 64) % 64) as byte, (0x80 + n % 64) as byte]
    else [(0xF0 + n / 262144) as byte, (0x80 + (n / 4096) % 64) as byte, (0x80 + (n / 64) % 64) as byte, (0x80 + n % 64) as byte]
  }

  function Utf8Str(s: string): seq<byte>
  {
    if |s| == 0 then [] else Utf8(s[0]) + Utf8Str(s[1..])
  }

  /** The bytes RFC 3986 calls unreserved; QueryEscape leaves exactly these alone. */
  predicate Unreserved(b: byte)
  {
    || ('a' as int as byte <= b <= 'z' as int as byte)
    || ('A' as int as byte <= b <= 'Z' as int as byte)
    || ('0' as int as byte <= b <= '9' as int as byte)
    || b == '-' as int as byte || b == '_' as int as byte || b == '.' as int as byte || b == '~' as int as byte
  }

  function HexDigit(d: int): (c: char)
    requires 0 <= d < 16
    ensures c in "0123456789ABCDEF"
  {
    "0123456789ABCDEF"[d]
  }

  function HexValue(c: char): (v: int)
    ensures -1 <= v < 16
  {
    if '0' <= c <= '9' then c as int - '0' as int
    else if 'A' <= c <= 'F' then c as int - 'A' as int + 10
    else if 'a' <= c <= 'f' then c as int - 'a' as int + 10
    else -1
  }

  lemma HexRoundTrip(d: int)
    requires 0 <= d < 16
    ensures HexValue(HexDigit(d)) == d
  {
  }

  /** One byte as QueryEscape writes it: kept, '+' for a space, or %XY in upper-case hex. */
  function EscapeByte(b: byte): string
  {
    if Unreserved(b) then [b as int as char]
    else if b == 32 then "+"
    else ['%', HexDigit(b as int / 16), HexDigit(b as int % 16)]
  }

  function EscapeBytes(bs: seq<byte>): string
  {
    if |bs| == 0 then "" else EscapeByte(bs[0]) + EscapeBytes(bs[1..])
  }

  /** url.QueryEscape. */
  function QueryEscape(s: string): (e: string)
    ensures forall i :: 0 <= i < |e| ==> EscapedChar(e[i])
  {
    EscapeBytesChars(Utf8Str(s));
    EscapeBytes(Utf8Str(s))
  }

  /** url.QueryUnescape: '+' is a space, %XY a byte, any other character its own bytes; a bad escape fails. */
  function QueryUnescape(s: string): (r: Option<seq<byte>>)
    decreases |s|
  {
    if |s| == 0 then Some([])
    else if s[0] == '%' then
      if |s| < 3 || HexValue(s[1]) < 0 || HexValue(s[2]) < 0 then None
      else
        var rest := QueryUnescape(s[3..]);
        if rest.None? then None else Some([(HexValue(s[1]) * 16 + HexValue(s[2])) as byte] + rest.value)
    else
      var rest := QueryUnescape(s[1..]);
      if rest.None? then None
      else if s[0] == '+' then Some([32 as byte] + rest.value)
      else Some(Utf8(s[0]) + rest.value)
  }

  /** Every '%' starts an escape: two hex digits follow it. */
  predicate WellEscaped(s: string)
  {
    forall i :: 0 <= i < |s| && s[i] == '%' ==> i + 2 < |s| && HexValue(s[i + 1]) >= 0 && HexValue(s[i + 2]) >= 0
  }

  /** url.QueryUnescape fails exactly when some '%' is not followed by two hex digits. */
  lemma {:induction false} QueryUnescapeDefined(s: string)
    ensures QueryUnescape(s).Some? <==> WellEscaped(s)
    decreases |s|
  {
    if |s| > 0 {
      var k := if s[0] == '%' then 3 else 1;
      if s[0] == '%' && (|s| < 3 || HexValue(s[1]) < 0 || HexValue(s[2]) < 0) {
        assert !WellEscaped(s);
      } else {
        QueryUnescapeDefined(s[k..]);
        if WellEscaped(s) {
          forall i | 0 <= i < |s[k..]| && s[k..][i] == '%'
            ensures i + 2 < |s[k..]| && HexValue(s[k..][i + 1]) >= 0 && HexValue(s[k..][i + 2]) >= 0
          {
            assert s[i + k] == '%';
          }
        } else {
          var i :| 0 <= i < |s| && s[i] == '%' && !(i + 2 < |s| && HexValue(s[i + 1]) >= 0 && HexValue(s[i + 2]) >= 0);
          assert i >= k;
          assert s[k..][i - k] == '%';
        }
      }
    }
  }

  /** Characters an escaped string is made of: none of them separates query parts or keys from values. */
  predicate EscapedChar(c: char)
  {
    c != '&' && c != '=' && c != ';' && c != '#' && c != '?'
  }

  lemma {:induction false} EscapeBytesChars(bs: seq<byte>)
    ensures forall i :: 0 <= i < |EscapeBytes(bs)| ==> EscapedChar(EscapeBytes(bs)[i])
  {
    if |bs| > 0 {
      EscapeBytesChars(bs[1..]);
      var e, rest := EscapeByte(bs[0]), EscapeBytes(bs[1..]);
      EscapeByteChars(bs[0]);
      assert EscapeBytes(bs) == e + rest;
      forall i | 0 <= i < |e + rest|
        ensures EscapedChar((e + rest)[i])
      {
        if i < |e| {
          assert (e + rest)[i] == e[i];
        } else {
          assert (e + rest)[i] == rest[i - |e|];
        }
      }
    }
  }

  lemma EscapeByteChars(b: byte)
    ensures forall i :: 0 <= i < |EscapeByte(b)| ==> EscapedChar(EscapeByte(b)[i])
  {
    if Unreserved(b) {
      assert EscapeByte(b) == [b as int as char];
    } else if b != 32 {
      var hi, lo := HexDigit(b as int / 16), HexDigit(b as int % 16);
      assert EscapeByte(b) == ['%', hi, lo];
      HexDigitEscaped(b as int / 16);
      HexDigitEscaped(b as int % 16);
    }
  }

  lemma HexDigitEscaped(d: int)
    requires 0 <= d < 16
    ensures EscapedChar(HexDigit(d))
  {
    assert '0' <= HexDigit(d) <= '9' || 'A' <= HexDigit(d) <= 'F';
  }

  lemma UnescapeEscapeByte(b: byte, rest: string)
    requires QueryUnescape(rest).Some?
    ensures QueryUnescape(EscapeByte(b) + rest) == Some([b] + QueryUnescape(rest).value)
  {
    if Unreserved(b) || b == 32 {
      UnescapeKeptByte(b, rest);
    } else {
      UnescapePercentByte(b, rest);
    }
  }

  lemma UnescapeKeptByte(b: byte, rest: string)
    requires QueryUnescape(rest).Some?
    requires Unreserved(b) || b == 32
    ensures QueryUnescape(EscapeByte(b) + rest) == Some([b] + QueryUnescape(rest).value)
  {
    var s := EscapeByte(b) + rest;
    assert |EscapeByte(b)| == 1;
    assert s[1..] == rest;
    assert s[0] != '%';
  }

  lemma UnescapePercentByte(b: byte, rest: string)
    requires QueryUnescape(rest).Some?
    requires !Unreserved(b) && b != 32
    ensures QueryUnescape(EscapeByte(b) + rest) == Some([b] + QueryUnescape(rest).value)
  {
    var hi, lo := HexDigit(b as int / 16), HexDigit(b as int % 16);
    EscapePercent(b);
    HexPair(b);
    UnescapePercentStep(hi, lo, rest);
  }

  lemma EscapePercent(b: byte)
    requires !Unreserved(b) && b != 32
    ensures EscapeByte(b) == ['%', HexDigit(b as int / 16), HexDigit(b as int % 16)]
  {
  }

  /** A well-formed %XY at the front decodes to one byte followed by the rest. */
  lemma UnescapePercentStep(x: char, y: char, rest: string)
    requires HexValue(x) >= 0 && HexValue(y) >= 0 && QueryUnescape(rest).Some?
    ensures QueryUnescape(['%', x, y] + rest) == Some([(HexValue(x) * 16 + HexValue(y)) as byte] + QueryUnescape(rest).value)
  {
    var s := ['%', x, y] + rest;
    assert s[0] == '%' && s[1] == x && s[2] == y && s[3..] == rest;
  }

  /** The two digits of a byte's escape read back as the byte. */
  lemma HexPair(b: byte)
    ensures HexValue(HexDigit(b as int / 16)) == b as int / 16
    ensures HexValue(HexDigit(b as int % 16)) == b as int % 16
    ensures (HexValue(HexDigit(b as int / 16)) * 16 + HexValue(HexDigit(b as int % 16))) as byte == b
  {
    HexRoundTrip(b as int / 16);
    HexRoundTrip(b as int % 16);
  }

  /** Unescaping an escaped byte string gives the bytes back. */
  lemma {:induction false} UnescapeEscapeBytes(bs: seq<byte>)
    ensures QueryUnescape(EscapeBytes(bs)) == Some(bs)
  {
    if |bs| > 0 {
      UnescapeEscapeBytes(bs[1..]);
      UnescapeEscapeByte(bs[0], EscapeBytes(bs[1..]));
      assert [bs[0]] + bs[1..] == bs;
    }
  }

  /** QueryUnescape(QueryEscape(s)) is the Go string s, for every s. */
  lemma QueryEscapeRoundTrip(s: string)
    ensures QueryUnescape(QueryEscape(s)) == Some(Utf8Str(s))
    ensures forall i :: 0 <= i < |QueryEscape(s)| ==> EscapedChar(QueryEscape(s)[i])
  {
    UnescapeEscapeBytes(Utf8Str(s));
    EscapeBytesChars(Utf8Str(s));
  }

  /** strings.Cut on a single-character separator: the text before its first occurrence and the rest. */
  function Cut(s: string, sep: char): (r: (string, string))
    ensures sep !in s ==> r == (s, "")
    ensures sep in s ==> sep !in r.0 && s == r.0 + [sep] + r.1
  {
    if |s| == 0 then ("", "")
    else if s[0] == sep then ("", s[1..])
    else
      var (before, after) := Cut(s[1..], sep);
      assert s == [s[0]] + s[1..];
      ([s[0]] + before, after)
  }

  lemma {:induction false} CutAt(a: string, b: string, sep: char)
    requires sep !in a
    ensures Cut(a + [sep] + b, sep) == (a, b)
  {
    var s := a + [sep] + b;
    if |a| == 0 {
      assert s == [sep] + b;
      assert s[1..] == b;
    } else {
      assert s[1..] == a[1..] + [sep] + b;
      CutAt(a[1..], b, sep);
      assert [a[0]] + a[1..] == a;
    }
  }

  /**
   * url.ParseQuery, keeping the pairs in order: parts are separated by '&'; an empty part or one
   * holding ';' is skipped; a part is split at its first '='; a pair whose key or value does not
   * unescape is dropped.
   */
  function ParseQuery(q: string): (r: seq<(seq<byte>, seq<byte>)>)
    ensures |r| <= |q|
    ensures '&' !in q && ';' in q ==> r == []
    ensures q != "" && '&' !in q && ';' !in q && '=' !in q && QueryUnescape(q).Some? ==> r == [(QueryUnescape(q).value, [])]
    decreases |q|
  {
    if q == "" then []
    else
      var (part, rest) := Cut(q, '&');
      var tail := ParseQuery(rest);
      if part == "" || ';' in part then tail
      else
        var (k, v) := Cut(part, '=');
        var key, value := QueryUnescape(k), QueryUnescape(v);
        if key.Some? && value.Some? then [(key.value, value.value)] + tail else tail
  }

  /** A part whose key or value does not unescape is dropped, and parsing goes on with the rest. */
  lemma ParseQueryDropsBadPart(part: string, rest: string)
    requires part != "" && '&' !in part && ';' !in part
    requires QueryUnescape(Cut(part, '=').0).None? || QueryUnescape(Cut(part, '=').1).None?
    ensures ParseQuery(part + ['&'] + rest) == ParseQuery(rest)
  {
    CutAt(part, rest, '&');
  }

  /** url.Values.Get: the first value for a key, or the empty string. */
  function QueryGet(pairs: seq<(seq<byte>, seq<byte>)>, key: seq<byte>): (v: seq<byte>)
    ensures (forall i :: 0 <= i < |pairs| ==> pairs[i].0 != key) ==> v == []
    ensures forall i :: 0 <= i < |pairs| && pairs[i].0 == key && (forall j :: 0 <= j < i ==> pairs[j].0 != key) ==> v == pairs[i].1
  {
    if |pairs| == 0 then [] else if pairs[0].0 == key then pairs[0].1 else QueryGet(pairs[1..], key)
  }

  /** The text before the first '/' of a path. */
  function FirstSegment(path: string): string
  {
    Cut(path, '/').0
  }

  /**
   * url.URL.String for a URL with no scheme and no user: "//host" when there is a host, a '/' put in
   * front of a relative path after a host, "./" in front of a first segment holding ':' when nothing
   * precedes the path, then "?" and the raw query when it is not empty. Host and path are written as given.
   */
  function UrlString(host: string, path: string, rawQuery: string): (u: string)
    ensures host != "" ==> |u| >= |host| + 2 && u[..|host| + 2] == "//" + host
    ensures rawQuery != "" ==> |u| > |rawQuery| && u[|u| - |rawQuery| - 1..] == "?" + rawQuery
    ensures host == "" && rawQuery == "" && ':' !in FirstSegment(path) ==> u == path
  {
    (if host != "" then "//" + host else "")
    + (if host != "" && path != "" && path[0] != '/' then "/" else "")
    + (if host == "" && ':' in FirstSegment(path) then "./" else "")
    + path
    + (if rawQuery != "" then "?" + rawQuery else "")
  }

  /** With a host, the path follows the host directly, a '/' put in front of it when it lacks one. */
  lemma UrlStringWithHost(host: string, path: string, rawQuery: string)
    ensures host != "" && (path == "" || path[0] == '/') ==>
      UrlString(host, path, rawQuery) == "//" + host + path + (if rawQuery != "" then "?" + rawQuery else "")
    ensures host != "" && path != "" && path[0] != '/' ==>
      UrlString(host, path, rawQuery) == "//" + host + "/" + path + (if rawQuery != "" then "?" + rawQuery else "")
  {
    if host != "" {
      var query := if rawQuery != "" then "?" + rawQuery else "";
      var slash := if path != "" && path[0] != '/' then "/" else "";
      assert UrlString(host, path, rawQuery) == "//" + host + slash + "" + path + query;
    }
  }
}
