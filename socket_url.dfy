/**
 * Building the address of the realtime endpoint from the configured API base
 * URL, the access token and the interface locale, and reading the query back.
 *
 * The URL is the API origin with its scheme rewritten (`http` -> `ws`, hence
 * `https` -> `wss`), the path `/ws`, and an application/x-www-form-urlencoded
 * query holding `token` (only for a non-empty token) followed by `lang`.
 */
module SocketUrl {
  import opened Wrappers

  type Byte = b: int | 0 <= b < 256

  /** Path of the realtime endpoint; as an absolute path it replaces the base URL's path. */
  const WsPath := "/ws"

  predicate StartsWith(s: string, prefix: string) {
    |prefix| <= |s| && s[..|prefix|] == prefix
  }

  /** Position of the first `c` in `s`, or `|s|` when there is none. */
  function FirstIndexOf(s: string, c: char): (r: nat)
    ensures r <= |s|
    ensures r < |s| ==> s[r] == c
    ensures forall k :: 0 <= k < r ==> s[k] != c
  {
    if s == [] then 0 else if s[0] == c then 0 else 1 + FirstIndexOf(s[1..], c)
  }

  /** The three facts FirstIndexOf promises single out its result. */
  lemma FirstIndexUnique(s: string, c: char, r: nat)
    requires r <= |s| && (r < |s| ==> s[r] == c)
    requires forall k :: 0 <= k < r ==> s[k] != c
    ensures FirstIndexOf(s, c) == r
  {
  }

  // ---------------------------------------------------------------------------
  // The scheme rewrite and the origin of the base URL
  // ---------------------------------------------------------------------------

  /** `apiURL.replace(/^http/, 'ws')`: one leading "http" becomes "ws". */
  function RewriteScheme(api: string): string {
    if StartsWith(api, "http") then "ws" + api[4..] else api
  }

  /** http becomes ws and https becomes wss; only the leading occurrence is rewritten. */
  lemma SchemeRewrite(rest: string)
    ensures RewriteScheme("http://" + rest) == "ws://" + rest
    ensures RewriteScheme("https://" + rest) == "wss://" + rest
    ensures RewriteScheme("http" + rest) == "ws" + rest
    ensures !StartsWith(rest, "http") ==> RewriteScheme(rest) == rest
  {
    HttpPrefix("://" + rest);
    assert "http://" + rest == "http" + ("://" + rest);
    HttpPrefix("s://" + rest);
    assert "https://" + rest == "http" + ("s://" + rest);
    HttpPrefix(rest);
  }

  lemma HttpPrefix(tail: string)
    ensures RewriteScheme("http" + tail) == "ws" + tail
  {
    var u := "http" + tail;
    assert u[..4] == "http";
    assert u[4..] == tail;
  }

  predicate IsAsciiLetter(c: char) { 'a' <= c <= 'z' || 'A' <= c <= 'Z' }

  predicate IsAsciiDigit(c: char) { '0' <= c <= '9' }

  predicate IsSchemeChar(c: char) {
    IsAsciiLetter(c) || IsAsciiDigit(c) || c == '+' || c == '-' || c == '.'
  }

  predicate IsScheme(s: string) {
    |s| >= 1 && IsAsciiLetter(s[0]) && forall k :: 0 <= k < |s| ==> IsSchemeChar(s[k])
  }

  /** Characters that end the authority of a hierarchical URL. */
  predicate EndsAuthority(c: char) { c == '/' || c == '?' || c == '#' }

  predicate IsAuthority(s: string) {
    |s| >= 1 && forall k :: 0 <= k < |s| ==> !EndsAuthority(s[k])
  }

  /** The part of a base URL that survives resolving the absolute path `/ws` against it. */
  datatype Origin = Origin(scheme: string, authority: string) {
    function ToString(): string { scheme + "://" + authority }
  }

  /** Length of the authority at the head of `s`. */
  function AuthorityLength(s: string): (r: nat)
    ensures r <= |s| && (r < |s| ==> EndsAuthority(s[r]))
    ensures forall k :: 0 <= k < r ==> !EndsAuthority(s[k])
  {
    if s == [] || EndsAuthority(s[0]) then 0 else 1 + AuthorityLength(s[1..])
  }

  /**
   * Parses `scheme://authority[rest]`; None is the TypeError that `new URL`
   * throws for a base that is not an absolute hierarchical URL.
   */
  function ParseOrigin(u: string): (r: Option<Origin>)
    ensures r.Some? ==> IsScheme(r.value.scheme) && IsAuthority(r.value.authority)
    ensures r.Some? ==> StartsWith(u, r.value.ToString())
    ensures r.Some? ==> |r.value.ToString()| == |u| || EndsAuthority(u[|r.value.ToString()|])
  {
    var i := FirstIndexOf(u, ':');
    if i + 3 <= |u| && IsScheme(u[..i]) && u[i + 1] == '/' && u[i + 2] == '/' then
      var tail := u[i + 3..];
      var j := AuthorityLength(tail);
      if j == 0 then None
      else
        var o := Origin(u[..i], tail[..j]);
        assert u[..i + 3] == u[..i] + "://";
        assert u[..i + 3 + j] == u[..i + 3] + tail[..j];
        assert o.ToString() == u[..i + 3 + j];
        Some(o)
    else None
  }

  /** Every well-formed base URL is accepted, and its origin is what precedes the path. */
  lemma ParseWellFormedOrigin(scheme: string, authority: string, rest: string)
    requires IsScheme(scheme) && IsAuthority(authority)
    requires rest == [] || EndsAuthority(rest[0])
    ensures ParseOrigin(scheme + "://" + authority + rest) == Some(Origin(scheme, authority))
  {
    var u := scheme + "://" + authority + rest;
    assert forall k :: 0 <= k < |scheme| ==> u[k] == scheme[k];
    FirstIndexUnique(u, ':', |scheme|);
    assert u[..|scheme|] == scheme;
    var tail := u[|scheme| + 3..];
    assert tail == authority + rest;
    assert forall k :: 0 <= k < |authority| ==> tail[k] == authority[k];
    AuthorityLengthUnique(tail, |authority|);
    assert tail[..|authority|] == authority;
  }

  lemma AuthorityLengthUnique(s: string, r: nat)
    requires r <= |s| && (r < |s| ==> EndsAuthority(s[r]))
    requires forall k :: 0 <= k < r ==> !EndsAuthority(s[k])
    ensures AuthorityLength(s) == r
  {
  }

  // ---------------------------------------------------------------------------
  // application/x-www-form-urlencoded encoding of one name or value
  // ---------------------------------------------------------------------------

  /** Characters the urlencoded serializer writes unchanged. */
  predicate IsUrlencodedSafe(c: char) {
    IsAsciiLetter(c) || IsAsciiDigit(c) || c == '*' || c == '-' || c == '.' || c == '_'
  }

  /** UTF-8 encoding of one Unicode scalar value. */
  function Utf8(c: char): (r: seq<Byte>)
    ensures 1 <= |r| <= 4
    ensures c as int < 0x80 ==> r == [c as int]
  {
    var n := c as int;
    if n < 0x80 then [n]
    else if n < 0x800 then [0xC0 + n / 64, 0x80 + n % 64]
    else if n < 0x10000 then [0xE0 + n / 4096, 0x80 + (n / 64) % 64, 0x80 + n % 64]
    else [0xF0 + n / 262144, 0x80 + (n / 4096) % 64, 0x80 + (n / 64) % 64, 0x80 + n % 64]
  }

  function Utf8String(s: string): seq<Byte> {
    if s == [] then [] else Utf8(s[0]) + Utf8String(s[1..])
  }

  /** The length of the UTF-8 sequence that a leading byte starts. */
  function SequenceLength(lead: Byte): (n: nat)
    ensures 1 <= n <= 4
  {
    if lead < 0x80 then 1 else if lead < 0xE0 then 2 else if lead < 0xF0 then 3 else 4
  }

  /** The code point one UTF-8 sequence stands for: the payload bits of its bytes, in order. */
  function CodePoint(bytes: seq<Byte>): int
    requires 1 <= |bytes| <= 4
  {
    var b: seq<int> := bytes;
    if |b| == 1 then b[0]
    else if |b| == 2 then (b[0] - 0xC0) * 64 + (b[1] - 0x80)
    else if |b| == 3 then (b[0] - 0xE0) * 4096 + (b[1] - 0x80) * 64 + (b[2] - 0x80)
    else (b[0] - 0xF0) * 262144 + (b[1] - 0x80) * 4096 + (b[2] - 0x80) * 64 + (b[3] - 0x80)
  }

  /**
   * UTF-8 decoding into code points, as a server reads the bytes of a
   * parameter. A truncated last sequence is dropped.
   */
  function Utf8Decode(bytes: seq<Byte>): seq<int>
    decreases |bytes|
  {
    if bytes == [] then []
    else
      var n := SequenceLength(bytes[0]);
      if n <= |bytes| then [CodePoint(bytes[..n])] + Utf8Decode(bytes[n..]) else []
  }

  /** The code points of a string. */
  function CodePoints(s: string): (r: seq<int>)
    ensures |r| == |s| && forall i :: 0 <= i < |s| ==> r[i] == s[i] as int
  {
    seq(|s|, i requires 0 <= i < |s| => s[i] as int)
  }

  /** The leading byte of a character's encoding announces its length, and the bytes give back its code point. */
  lemma Utf8Char(c: char)
    ensures SequenceLength(Utf8(c)[0]) == |Utf8(c)|
    ensures CodePoint(Utf8(c)) == c as int
  {
    var n := c as int;
    if n >= 0x80 {
      var q1 := n / 64;
      assert n == q1 * 64 + n % 64;
      if n >= 0x800 {
        var q2 := q1 / 64;
        assert q2 == n / 4096;
        assert q1 == q2 * 64 + q1 % 64;
        if n >= 0x10000 {
          var q3 := q2 / 64;
          assert q3 == n / 262144;
          assert q2 == q3 * 64 + q2 % 64;
        }
      }
    }
  }

  /** Decoding one character's encoding, followed by anything, gives its code point first. */
  lemma DecodeChar(c: char, rest: seq<Byte>)
    ensures Utf8Decode(Utf8(c) + rest) == [c as int] + Utf8Decode(rest)
  {
    Utf8Char(c);
    var bytes := Utf8(c) + rest;
    var n := |Utf8(c)|;
    assert bytes[0] == Utf8(c)[0];
    assert bytes[..n] == Utf8(c) && bytes[n..] == rest;
  }

  /** Decoding the UTF-8 encoding of a string gives back its code points. */
  lemma {:induction false} Utf8RoundTrip(s: string)
    ensures Utf8Decode(Utf8String(s)) == CodePoints(s)
  {
    if s != [] {
      DecodeChar(s[0], Utf8String(s[1..]));
      Utf8RoundTrip(s[1..]);
      assert CodePoints(s) == [s[0] as int] + CodePoints(s[1..]);
    }
  }

  /** Different strings have different encodings. */
  lemma Utf8StringInjective(a: string, b: string)
    requires Utf8String(a) == Utf8String(b)
    ensures a == b
  {
    Utf8RoundTrip(a);
    Utf8RoundTrip(b);
    assert |a| == |b|;
    assert forall i :: 0 <= i < |a| ==> a[i] as int == b[i] as int;
  }

  /** Upper-case hexadecimal digit, as the percent-encoder writes it. */
  function HexDigit(d: nat): (c: char)
    requires d < 16
    ensures IsHexDigit(c) && HexValue(c) == d
  {
    if d < 10 then ('0' as int + d) as char else ('A' as int + d - 10) as char
  }

  predicate IsHexDigit(c: char) { '0' <= c <= '9' || 'A' <= c <= 'F' || 'a' <= c <= 'f' }

  function HexValue(c: char): (d: nat)
    requires IsHexDigit(c)
    ensures d < 16
  {
    if '0' <= c <= '9' then c as int - '0' as int
    else if 'A' <= c <= 'F' then c as int - 'A' as int + 10
    else c as int - 'a' as int + 10
  }

  function PercentEncode(bytes: seq<Byte>): string {
    if bytes == [] then ""
    else ['%', HexDigit(bytes[0] / 16), HexDigit(bytes[0] % 16)] + PercentEncode(bytes[1..])
  }

  function EncodeChar(c: char): string {
    if IsUrlencodedSafe(c) then [c]
    else if c == ' ' then "+"
    else PercentEncode(Utf8(c))
  }

  /** The urlencoded serializer applied to one name or value. */
  function FormEncode(s: string): string {
    if s == [] then "" else EncodeChar(s[0]) + FormEncode(s[1..])
  }

  /** The urlencoded parser's decoding of one name or value, to bytes. */
  function FormDecode(s: string): seq<Byte>
    decreases |s|
  {
    if s == [] then []
    else if s[0] == '+' then [0x20] + FormDecode(s[1..])
    else if s[0] == '%' && |s| >= 3 && IsHexDigit(s[1]) && IsHexDigit(s[2]) then
      [HexValue(s[1]) * 16 + HexValue(s[2])] + FormDecode(s[3..])
    else Utf8(s[0]) + FormDecode(s[1..])
  }

  /** Characters that can appear in the output of FormEncode. */
  predicate IsEncodedChar(c: char) { IsUrlencodedSafe(c) || c == '+' || c == '%' }

  predicate IsEncoded(s: string) { forall k :: 0 <= k < |s| ==> IsEncodedChar(s[k]) }

  lemma EncodedConcat(a: string, b: string)
    requires IsEncoded(a) && IsEncoded(b)
    ensures IsEncoded(a + b)
  {
    assert forall k :: 0 <= k < |a + b| ==> (a + b)[k] == if k < |a| then a[k] else b[k - |a|];
  }

  lemma {:induction false} PercentEncodeIsEncoded(bytes: seq<Byte>)
    ensures IsEncoded(PercentEncode(bytes))
  {
    if bytes != [] {
      PercentEncodeIsEncoded(bytes[1..]);
      var b := bytes[0];
      EncodedConcat(['%', HexDigit(b / 16), HexDigit(b % 16)], PercentEncode(bytes[1..]));
    }
  }

  /** Encoded text never holds the separators `&`, `=`, `?` or `#`. */
  lemma {:induction false} FormEncodeIsEncoded(s: string)
    ensures IsEncoded(FormEncode(s))
  {
    if s != [] {
      PercentEncodeIsEncoded(Utf8(s[0]));
      FormEncodeIsEncoded(s[1..]);
      EncodedConcat(EncodeChar(s[0]), FormEncode(s[1..]));
    }
  }

  /** One percent-encoded byte decodes to that byte. */
  lemma DecodeTriplet(b: Byte, tail: string)
    ensures FormDecode(['%', HexDigit(b / 16), HexDigit(b % 16)] + tail) == [b] + FormDecode(tail)
  {
    var s := ['%', HexDigit(b / 16), HexDigit(b % 16)] + tail;
    assert s[0] == '%' && s[1] == HexDigit(b / 16) && s[2] == HexDigit(b % 16);
    assert s[3..] == tail;
  }

  lemma {:induction false} PercentDecode(bytes: seq<Byte>, rest: string)
    ensures FormDecode(PercentEncode(bytes) + rest) == bytes + FormDecode(rest)
  {
    if bytes == [] {
      assert PercentEncode(bytes) + rest == rest;
    } else {
      var b := bytes[0];
      var triplet := ['%', HexDigit(b / 16), HexDigit(b % 16)];
      var tail := PercentEncode(bytes[1..]) + rest;
      calc {
        FormDecode(PercentEncode(bytes) + rest);
        { assert PercentEncode(bytes) + rest == triplet + tail; }
        FormDecode(triplet + tail);
        { DecodeTriplet(b, tail); }
        [b] + FormDecode(tail);
        { PercentDecode(bytes[1..], rest); }
        [b] + (bytes[1..] + FormDecode(rest));
        { assert bytes == [b] + bytes[1..]; }
        bytes + FormDecode(rest);
      }
    }
  }

  lemma EncodeCharDecode(c: char, rest: string)
    ensures FormDecode(EncodeChar(c) + rest) == Utf8(c) + FormDecode(rest)
  {
    if IsUrlencodedSafe(c) {
      assert ([c] + rest)[1..] == rest;
    } else if c == ' ' {
      assert ("+" + rest)[1..] == rest;
    } else {
      PercentDecode(Utf8(c), rest);
    }
  }

  /** Decoding undoes encoding: the value arrives as its UTF-8 bytes. */
  lemma {:induction false} FormRoundTrip(s: string)
    ensures FormDecode(FormEncode(s)) == Utf8String(s)
  {
    if s != [] {
      EncodeCharDecode(s[0], FormEncode(s[1..]));
      FormRoundTrip(s[1..]);
    }
  }

  // ---------------------------------------------------------------------------
  // The query string
  // ---------------------------------------------------------------------------

  datatype Param = Param(name: string, value: string)

  /** JavaScript truthiness of the access token (`string | null`). */
  predicate TokenIsTruthy(token: Option<string>) {
    token.Some? && token.value != ""
  }

  /** The parameters appended to the URL, in order. */
  function QueryParams(token: Option<string>, locale: string): seq<Param> {
    (if TokenIsTruthy(token) then [Param("token", token.value)] else []) + [Param("lang", locale)]
  }

  function SerializePair(p: Param): string {
    FormEncode(p.name) + "=" + FormEncode(p.value)
  }

  function SerializeQuery(ps: seq<Param>): string {
    if |ps| == 0 then ""
    else if |ps| == 1 then SerializePair(ps[0])
    else SerializePair(ps[0]) + "&" + SerializeQuery(ps[1..])
  }

  /**
   * The string handed to the WebSocket constructor, or None when `new URL`
   * rejects the rewritten base.
   */
  function BuildSocketUrl(api: string, token: Option<string>, locale: string): Option<string> {
    match ParseOrigin(RewriteScheme(api))
    case None => None
    case Some(o) => Some(o.ToString() + WsPath + "?" + SerializeQuery(QueryParams(token, locale)))
  }

  /** Splitting on a separator, keeping empty pieces. */
  function SplitOn(s: string, sep: char): (r: seq<string>)
    ensures |r| >= 1
    decreases |s|
  {
    var i := FirstIndexOf(s, sep);
    if i == |s| then [s] else [s[..i]] + SplitOn(s[i + 1..], sep)
  }

  /** A name=value piece of a query, decoded; a piece without `=` has an empty value. */
  function DecodePair(piece: string): (seq<Byte>, seq<Byte>) {
    var i := FirstIndexOf(piece, '=');
    if i == |piece| then (FormDecode(piece), []) else (FormDecode(piece[..i]), FormDecode(piece[i + 1..]))
  }

  function DecodePieces(pieces: seq<string>): seq<(seq<Byte>, seq<Byte>)> {
    if pieces == [] then []
    else (if pieces[0] == "" then [] else [DecodePair(pieces[0])]) + DecodePieces(pieces[1..])
  }

  /** The urlencoded parser: the list of (name, value) byte strings a server reads. */
  function ParseQuery(q: string): seq<(seq<Byte>, seq<Byte>)> {
    DecodePieces(SplitOn(q, '&'))
  }

  /** The query of a URL: after the first `?`, up to a `#`. */
  function QueryOf(url: string): string {
    var i := FirstIndexOf(url, '?');
    if i == |url| then ""
    else
      var rest := url[i + 1..];
      rest[..FirstIndexOf(rest, '#')]
  }

  function DecodedParams(ps: seq<Param>): seq<(seq<Byte>, seq<Byte>)> {
    if ps == [] then [] else [(Utf8String(ps[0].name), Utf8String(ps[0].value))] + DecodedParams(ps[1..])
  }

  lemma SplitOnPlain(a: string, sep: char)
    requires forall k :: 0 <= k < |a| ==> a[k] != sep
    ensures SplitOn(a, sep) == [a]
  {
    FirstIndexUnique(a, sep, |a|);
  }

  lemma SplitOnPiece(a: string, sep: char, b: string)
    requires forall k :: 0 <= k < |a| ==> a[k] != sep
    ensures SplitOn(a + [sep] + b, sep) == [a] + SplitOn(b, sep)
  {
    var s := a + [sep] + b;
    FirstIndexUnique(s, sep, |a|);
    assert s[..|a|] == a;
    assert s[|a| + 1..] == b;
  }

  predicate IsQueryChar(c: char) { IsEncodedChar(c) || c == '=' || c == '&' }

  predicate IsQueryText(s: string) { forall k :: 0 <= k < |s| ==> IsQueryChar(s[k]) }

  lemma QueryTextConcat(a: string, b: string)
    requires IsQueryText(a) && IsQueryText(b)
    ensures IsQueryText(a + b)
  {
    assert forall k :: 0 <= k < |a + b| ==> (a + b)[k] == if k < |a| then a[k] else b[k - |a|];
  }

  lemma PairShape(p: Param)
    ensures IsQueryText(SerializePair(p)) && SerializePair(p) != ""
    ensures forall k :: 0 <= k < |SerializePair(p)| ==> SerializePair(p)[k] != '&'
    ensures DecodePair(SerializePair(p)) == (Utf8String(p.name), Utf8String(p.value))
  {
    var n, v := FormEncode(p.name), FormEncode(p.value);
    FormEncodeIsEncoded(p.name);
    FormEncodeIsEncoded(p.value);
    PairText(n, v);
    FormRoundTrip(p.name);
    FormRoundTrip(p.value);
  }

  /** An encoded name and value joined by `=`: query text, no `&`, split back at its only `=`. */
  lemma PairText(n: string, v: string)
    requires IsEncoded(n) && IsEncoded(v)
    ensures IsQueryText(n + "=" + v) && n + "=" + v != ""
    ensures forall k :: 0 <= k < |n + "=" + v| ==> (n + "=" + v)[k] != '&'
    ensures DecodePair(n + "=" + v) == (FormDecode(n), FormDecode(v))
  {
    var s := n + "=" + v;
    assert forall k :: 0 <= k < |s| ==> s[k] == if k < |n| then n[k] else if k == |n| then '=' else v[k - |n| - 1];
    FirstIndexUnique(s, '=', |n|);
    assert s[..|n|] == n;
    assert s[|n| + 1..] == v;
  }

  lemma {:induction false} QueryChars(ps: seq<Param>)
    ensures IsQueryText(SerializeQuery(ps))
  {
    if |ps| == 1 {
      PairShape(ps[0]);
    } else if |ps| > 1 {
      PairShape(ps[0]);
      QueryChars(ps[1..]);
      QueryTextConcat(SerializePair(ps[0]), "&");
      QueryTextConcat(SerializePair(ps[0]) + "&", SerializeQuery(ps[1..]));
    }
  }

  lemma DecodeLeadingPiece(piece: string, pieces: seq<string>)
    requires piece != ""
    ensures DecodePieces([piece] + pieces) == [DecodePair(piece)] + DecodePieces(pieces)
  {
    assert ([piece] + pieces)[1..] == pieces;
  }

  /** Parsing a serialized query gives back every parameter, in order, as UTF-8 bytes. */
  lemma {:induction false} QueryRoundTrip(ps: seq<Param>)
    ensures ParseQuery(SerializeQuery(ps)) == DecodedParams(ps)
  {
    if |ps| == 0 {
      assert SplitOn("", '&') == [""];
    } else if |ps| == 1 {
      var piece := SerializePair(ps[0]);
      PairShape(ps[0]);
      SplitOnPlain(piece, '&');
      DecodeLeadingPiece(piece, []);
      assert [piece] + [] == [piece];
      assert DecodedParams(ps) == [(Utf8String(ps[0].name), Utf8String(ps[0].value))] + DecodedParams([]);
    } else {
      var head, tail := SerializePair(ps[0]), SerializeQuery(ps[1..]);
      PairShape(ps[0]);
      SplitOnPiece(head, '&', tail);
      assert SerializeQuery(ps) == head + ['&'] + tail;
      DecodeLeadingPiece(head, SplitOn(tail, '&'));
      QueryRoundTrip(ps[1..]);
    }
  }

  /** The query of the built URL is exactly its serialized parameters. */
  lemma QueryOfBuiltUrl(o: Origin, q: string)
    requires IsScheme(o.scheme) && IsAuthority(o.authority) && IsQueryText(q)
    ensures QueryOf(o.ToString() + WsPath + "?" + q) == q
  {
    var head := o.ToString() + WsPath;
    var url := head + "?" + q;
    assert forall k :: 0 <= k < |head| ==>
      head[k] == (
        if k < |o.scheme| then o.scheme[k]
        else if k < |o.scheme| + 3 then "://"[k - |o.scheme|]
        else if k < |o.scheme| + 3 + |o.authority| then o.authority[k - |o.scheme| - 3]
        else WsPath[k - |o.scheme| - 3 - |o.authority|]);
    assert forall k :: 0 <= k < |head| ==> url[k] == head[k] && head[k] != '?';
    FirstIndexUnique(url, '?', |head|);
    assert url[|head| + 1..] == q;
    FirstIndexUnique(q, '#', |q|);
    assert q[..|q|] == q;
  }

  /**
   * The query a server reads from the built URL: `token` exactly when the
   * token is truthy, then `lang`, each carrying its value's UTF-8 bytes.
   */
  lemma SocketUrlQuery(api: string, token: Option<string>, locale: string)
    requires BuildSocketUrl(api, token, locale).Some?
    ensures ParseQuery(QueryOf(BuildSocketUrl(api, token, locale).value)) ==
      (if TokenIsTruthy(token) then [(Utf8String("token"), Utf8String(token.value))] else []) +
      [(Utf8String("lang"), Utf8String(locale))]
  {
    var o := ParseOrigin(RewriteScheme(api)).value;
    var ps := QueryParams(token, locale);
    QueryChars(ps);
    QueryOfBuiltUrl(o, SerializeQuery(ps));
    QueryRoundTrip(ps);
    DecodedQueryParams(token, locale);
  }

  lemma DecodedQueryParams(token: Option<string>, locale: string)
    ensures DecodedParams(QueryParams(token, locale)) ==
      (if TokenIsTruthy(token) then [(Utf8String("token"), Utf8String(token.value))] else []) +
      [(Utf8String("lang"), Utf8String(locale))]
  {
    var ps := QueryParams(token, locale);
    var lang := [(Utf8String("lang"), Utf8String(locale))];
    assert DecodedParams([Param("lang", locale)]) == lang + DecodedParams([]);
    if TokenIsTruthy(token) {
      assert ps[1..] == [Param("lang", locale)];
      assert DecodedParams(ps) == [(Utf8String("token"), Utf8String(token.value))] + DecodedParams(ps[1..]);
    } else {
      assert ps == [Param("lang", locale)];
    }
  }

  /**
   * A server tells connections apart by their query: two URLs whose queries
   * parse alike were built from the same locale and, when either carried a
   * token, the same token.
   */
  lemma QueryIdentifiesInputs(api1: string, token1: Option<string>, locale1: string,
                              api2: string, token2: Option<string>, locale2: string)
    requires BuildSocketUrl(api1, token1, locale1).Some? && BuildSocketUrl(api2, token2, locale2).Some?
    requires ParseQuery(QueryOf(BuildSocketUrl(api1, token1, locale1).value)) ==
             ParseQuery(QueryOf(BuildSocketUrl(api2, token2, locale2).value))
    ensures locale1 == locale2
    ensures TokenIsTruthy(token1) <==> TokenIsTruthy(token2)
    ensures TokenIsTruthy(token1) ==> token1.value == token2.value
  {
    SocketUrlQuery(api1, token1, locale1);
    SocketUrlQuery(api2, token2, locale2);
    var q := ParseQuery(QueryOf(BuildSocketUrl(api1, token1, locale1).value));
    assert q[|q| - 1] == (Utf8String("lang"), Utf8String(locale1));
    assert q[|q| - 1] == (Utf8String("lang"), Utf8String(locale2));
    Utf8StringInjective(locale1, locale2);
    if TokenIsTruthy(token1) {
      assert q[0] == (Utf8String("token"), Utf8String(token1.value));
      assert q[0] == (Utf8String("token"), Utf8String(token2.value));
      Utf8StringInjective(token1.value, token2.value);
    }
  }

  lemma RewrittenBase(api: string, scheme: string, prefix: string, host: string, path: string,
                      token: Option<string>, locale: string)
    requires IsScheme(scheme) && prefix == scheme + "://"
    requires IsAuthority(host) && (path == [] || EndsAuthority(path[0]))
    requires RewriteScheme(api) == prefix + (host + path)
    ensures BuildSocketUrl(api, token, locale) ==
      Some(prefix + host + "/ws?" + SerializeQuery(QueryParams(token, locale)))
  {
    assert prefix + (host + path) == scheme + "://" + host + path;
    ParseWellFormedOrigin(scheme, host, path);
    var q := SerializeQuery(QueryParams(token, locale));
    assert Origin(scheme, host).ToString() + WsPath + "?" + q == prefix + host + "/ws?" + q;
  }

  lemma SecureScheme()
    ensures IsScheme("wss") && "wss://" == "wss" + "://"
  {
  }

  lemma PlainScheme()
    ensures IsScheme("ws") && "ws://" == "ws" + "://"
  {
  }

  /**
   * An https base becomes a wss URL on the same host; the base's own path,
   * query and fragment are dropped for the fixed path `/ws`.
   */
  lemma SecureBaseBecomesWss(api: string, host: string, path: string, token: Option<string>, locale: string)
    requires IsAuthority(host) && (path == [] || EndsAuthority(path[0]))
    requires api == "https://" + host + path
    ensures BuildSocketUrl(api, token, locale) ==
      Some("wss://" + host + "/ws?" + SerializeQuery(QueryParams(token, locale)))
  {
    var tail := host + path;
    assert api == "https://" + tail;
    SchemeRewrite(tail);
    SecureScheme();
    RewrittenBase(api, "wss", "wss://", host, path, token, locale);
  }

  /** The same for a plain http base, which becomes a ws URL. */
  lemma PlainBaseBecomesWs(api: string, host: string, path: string, token: Option<string>, locale: string)
    requires IsAuthority(host) && (path == [] || EndsAuthority(path[0]))
    requires api == "http://" + host + path
    ensures BuildSocketUrl(api, token, locale) ==
      Some("ws://" + host + "/ws?" + SerializeQuery(QueryParams(token, locale)))
  {
    var tail := host + path;
    assert api == "http://" + tail;
    SchemeRewrite(tail);
    PlainScheme();
    RewrittenBase(api, "ws", "ws://", host, path, token, locale);
  }

  /** Without a usable base there is no URL: construction fails before any socket exists. */
  lemma RelativeBaseFails(api: string, token: Option<string>, locale: string)
    requires forall k :: 0 <= k < |api| ==> api[k] != ':'
    ensures BuildSocketUrl(api, token, locale).None?
  {
    var u := RewriteScheme(api);
    if StartsWith(api, "http") {
      assert forall k :: 2 <= k < |u| ==> u[k] == api[k + 2];
      assert u[0] != ':' && u[1] != ':';
    }
    assert forall k :: 0 <= k < |u| ==> u[k] != ':';
    FirstIndexUnique(u, ':', |u|);
  }
}
