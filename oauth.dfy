/** The OAuth helper: the authorize URL a user is sent to, and the exchange of
    an authorization code for an access token. The URL's query string is
    Python's `urlencode` (each key and value through `quote_plus`); a decoder
    written independently of it shows that the query carries exactly the two
    parameters. */
module OAuth {
  import opened Values
  import opened Http

  const OAUTH_ROOT := "https://www.mixcloud.com/oauth"

  /** The `MixcloudOauth` object: all three settings default to None. */
  datatype OauthClient = OauthClient(
    clientId: Option<string>,
    clientSecret: Option<string>,
    redirectUri: Option<string>)

  /** `str(v)` of an optional setting, as `urlencode` applies it. */
  function PyStr(v: Option<string>): string {
    if v.Some? then v.value else "None"
  }

  // ---------------------------------------------------------------------
  // quote_plus: percent-encoding of the UTF-8 bytes, space as '+'.

  /** The characters `quote_plus` never escapes. */
  predicate AlwaysSafe(c: char) {
    ('A' <= c <= 'Z') || ('a' <= c <= 'z') || ('0' <= c <= '9') || c == '_' || c == '.' || c == '-' || c == '~'
  }

  /** The characters `quote_plus` can output. */
  predicate IsQuoted(c: char) {
    AlwaysSafe(c) || c == '+' || c == '%'
  }

  function HexDigit(d: nat): (c: char)
    requires d < 16
    ensures AlwaysSafe(c)
  {
    if d < 10 then ('0' as int + d) as char else ('A' as int + d - 10) as char
  }

  predicate IsHex(c: char) {
    ('0' <= c <= '9') || ('A' <= c <= 'F') || ('a' <= c <= 'f')
  }

  function HexValue(c: char): nat
    requires IsHex(c)
  {
    if '0' <= c <= '9' then c as int - '0' as int
    else if 'A' <= c <= 'F' then c as int - 'A' as int + 10
    else c as int - 'a' as int + 10
  }

  predicate IsByte(b: int) { 0 <= b < 256 }

  /** The UTF-8 encoding of one character. */
  function Utf8(c: char): (bytes: seq<int>)
    ensures 1 <= |bytes| <= 4 && forall i | 0 <= i < |bytes| :: IsByte(bytes[i])
  {
    var n := c as int;
    if n < 0x80 then [n]
    else if n < 0x800 then [0xC0 + n / 0x40, 0x80 + n % 0x40]
    else if n < 0x1_0000 then
      var q := n / 0x40;
      [0xE0 + q / 0x40, 0x80 + q % 0x40, 0x80 + n % 0x40]
    else
      var q := n / 0x40;
      var qq := q / 0x40;
      [0xF0 + qq / 0x40, 0x80 + qq % 0x40, 0x80 + q % 0x40, 0x80 + n % 0x40]
  }

  function Escape(b: int): string
    requires IsByte(b)
  {
    ['%', HexDigit(b / 16), HexDigit(b % 16)]
  }

  function EscapeAll(bytes: seq<int>): (s: string)
    requires forall i | 0 <= i < |bytes| :: IsByte(bytes[i])
    ensures |s| == 3 * |bytes|
    ensures forall i | 0 <= i < |s| :: IsQuoted(s[i])
  {
    if bytes == [] then [] else Escape(bytes[0]) + EscapeAll(bytes[1..])
  }

  function QuoteChar(c: char): (q: string)
    ensures forall i | 0 <= i < |q| :: IsQuoted(q[i])
  {
    if AlwaysSafe(c) then [c]
    else if c == ' ' then "+"
    else EscapeAll(Utf8(c))
  }

  /** `quote_plus(s)` (its `safe` set is empty, so '/' and ':' are escaped too). */
  function QuotePlus(s: string): (q: string)
    ensures forall i | 0 <= i < |q| :: IsQuoted(q[i])
  {
    if s == [] then [] else QuoteChar(s[0]) + QuotePlus(s[1..])
  }

  // ---------------------------------------------------------------------
  // urlencode and the authorize URL.

  function EncodePair(p: (string, string)): string {
    QuotePlus(p.0) + "=" + QuotePlus(p.1)
  }

  /** `urlencode(pairs)`: the encoded pairs joined by '&', in order. */
  function UrlEncode(pairs: seq<(string, string)>): string {
    if pairs == [] then ""
    else if |pairs| == 1 then EncodePair(pairs[0])
    else EncodePair(pairs[0]) + "&" + UrlEncode(pairs[1..])
  }

  const AUTHORIZE_PREFIX := OAUTH_ROOT + "/authorize?"

  /** `authorize_url()`: the authorize endpoint and the URL-encoded
      `client_id` and `redirect_uri`, in that order. */
  function AuthorizeUrl(o: OauthClient): string {
    AUTHORIZE_PREFIX + UrlEncode([("client_id", PyStr(o.clientId)), ("redirect_uri", PyStr(o.redirectUri))])
  }

  // ---------------------------------------------------------------------
  // A query-string decoder, the reading a browser or server makes of the URL.

  /** The byte escaped as `%XY` at position `i`, if there is one. */
  function EscapedByte(s: string, i: nat): Option<int> {
    if i + 3 <= |s| && s[i] == '%' && IsHex(s[i + 1]) && IsHex(s[i + 2])
    then Some(HexValue(s[i + 1]) * 16 + HexValue(s[i + 2]))
    else None
  }

  /** The low six bits of a UTF-8 continuation byte escaped at position `i`. */
  function Continuation(s: string, i: nat): Option<int> {
    match EscapedByte(s, i)
    case Some(b) => if 0x80 <= b < 0xC0 then Some(b - 0x80) else None
    case None => None
  }

  function Scalar(cp: int, width: nat): Option<(char, nat)> {
    if (0 <= cp < 0xD800) || (0xE000 <= cp < 0x11_0000) then Some((cp as char, width)) else None
  }

  /** The character encoded by the escapes at the start of `s`, with the
      number of characters those escapes take up. */
  function DecodeEscapes(s: string): Option<(char, nat)> {
    match EscapedByte(s, 0)
    case None => None
    case Some(b0) =>
      if b0 < 0x80 then Scalar(b0, 3)
      else if 0xC0 <= b0 < 0xE0 then
        match Continuation(s, 3)
        case None => None
        case Some(x1) => Scalar((b0 - 0xC0) * 0x40 + x1, 6)
      else if 0xE0 <= b0 < 0xF0 then
        match (Continuation(s, 3), Continuation(s, 6))
        case (Some(x1), Some(x2)) => Scalar(((b0 - 0xE0) * 0x40 + x1) * 0x40 + x2, 9)
        case _ => None
      else if 0xF0 <= b0 < 0xF8 then
        match (Continuation(s, 3), Continuation(s, 6), Continuation(s, 9))
        case (Some(x1), Some(x2), Some(x3)) => Scalar((((b0 - 0xF0) * 0x40 + x1) * 0x40 + x2) * 0x40 + x3, 12)
        case _ => None
      else None
  }

  /** `unquote_plus` on well-formed input: '+' is a space, escapes are UTF-8. */
  function UnquotePlus(s: string): string
    decreases |s|
  {
    if s == [] then []
    else if s[0] == '+' then " " + UnquotePlus(s[1..])
    else if s[0] == '%' then
      match DecodeEscapes(s)
      case Some((c, width)) => if 0 < width <= |s| then [c] + UnquotePlus(s[width..]) else [s[0]] + UnquotePlus(s[1..])
      case None => [s[0]] + UnquotePlus(s[1..])
    else [s[0]] + UnquotePlus(s[1..])
  }

  /** `s.split(sep)`. */
  function Split(s: string, sep: char): (parts: seq<string>)
    ensures |parts| > 0
    decreases |s|
  {
    if s == [] then [[]]
    else
      var rest := Split(s[1..], sep);
      if s[0] == sep then [[]] + rest else [[s[0]] + rest[0]] + rest[1..]
  }

  /** `s.partition(sep)` without the separator: the text before the first
      `sep`, and the text after it if there is one. */
  function SplitFirst(s: string, sep: char): (string, Option<string>)
    decreases |s|
  {
    if s == [] then ([], None)
    else if s[0] == sep then ([], Some(s[1..]))
    else
      var (before, after) := SplitFirst(s[1..], sep);
      ([s[0]] + before, after)
  }

  function DecodePair(field: string): (string, string) {
    var (name, value) := SplitFirst(field, '=');
    (UnquotePlus(name), UnquotePlus(if value.Some? then value.value else ""))
  }

  /** The name/value pairs of a query string, in order. */
  function ParseQuery(q: string): seq<(string, string)> {
    if q == "" then []
    else
      var fields := Split(q, '&');
      seq(|fields|, i requires 0 <= i < |fields| => DecodePair(fields[i]))
  }

  // ---------------------------------------------------------------------
  // The decoder inverts the encoder.

  lemma HexRoundTrip(d: nat)
    requires d < 16
    ensures IsHex(HexDigit(d)) && HexValue(HexDigit(d)) == d
  {
  }

  lemma EscapedByteOfEscape(b: int, t: string)
    requires IsByte(b)
    ensures EscapedByte(Escape(b) + t, 0) == Some(b)
  {
    var s := Escape(b) + t;
    assert s[0] == '%' && s[1] == HexDigit(b / 16) && s[2] == HexDigit(b % 16);
    HexRoundTrip(b / 16);
    HexRoundTrip(b % 16);
  }

  lemma EscapedByteShift(pre: string, t: string, i: nat)
    requires |pre| == 3
    ensures EscapedByte(pre + t, i + 3) == EscapedByte(t, i)
  {
    var s := pre + t;
    if i + 3 <= |t| {
      assert s[i + 3] == t[i] && s[i + 4] == t[i + 1] && s[i + 5] == t[i + 2];
    }
  }

  lemma {:induction false} EscapeAllAt(bytes: seq<int>, k: nat, rest: string)
    requires forall i | 0 <= i < |bytes| :: IsByte(bytes[i])
    requires k < |bytes|
    ensures EscapedByte(EscapeAll(bytes) + rest, 3 * k) == Some(bytes[k])
    decreases k
  {
    var t := EscapeAll(bytes[1..]) + rest;
    assert EscapeAll(bytes) + rest == Escape(bytes[0]) + t;
    if k == 0 {
      EscapedByteOfEscape(bytes[0], t);
    } else {
      EscapeAllAt(bytes[1..], k - 1, rest);
      EscapedByteShift(Escape(bytes[0]), t, 3 * (k - 1));
    }
  }

  lemma DecodeOne(s: string, n: int)
    requires 0 <= n < 0x80
    requires EscapedByte(s, 0) == Some(n)
    ensures DecodeEscapes(s) == Some((n as char, 3))
  {
  }

  lemma DecodeTwo(s: string, n: int)
    requires 0x80 <= n < 0x800
    requires EscapedByte(s, 0) == Some(0xC0 + n / 0x40)
    requires EscapedByte(s, 3) == Some(0x80 + n % 0x40)
    ensures DecodeEscapes(s) == Some((n as char, 6))
  {
    assert Continuation(s, 3) == Some(n % 0x40);
  }

  lemma DecodeThree(s: string, n: int)
    requires 0x800 <= n < 0xD800 || 0xE000 <= n < 0x1_0000
    requires EscapedByte(s, 0) == Some(0xE0 + n / 0x40 / 0x40)
    requires EscapedByte(s, 3) == Some(0x80 + n / 0x40 % 0x40)
    requires EscapedByte(s, 6) == Some(0x80 + n % 0x40)
    ensures DecodeEscapes(s) == Some((n as char, 9))
  {
    var q := n / 0x40;
    assert Continuation(s, 3) == Some(q % 0x40);
    assert Continuation(s, 6) == Some(n % 0x40);
    assert (q / 0x40) * 0x40 + q % 0x40 == q;
  }

  lemma DecodeFour(s: string, n: int)
    requires 0x1_0000 <= n < 0x11_0000
    requires EscapedByte(s, 0) == Some(0xF0 + n / 0x40 / 0x40 / 0x40)
    requires EscapedByte(s, 3) == Some(0x80 + n / 0x40 / 0x40 % 0x40)
    requires EscapedByte(s, 6) == Some(0x80 + n / 0x40 % 0x40)
    requires EscapedByte(s, 9) == Some(0x80 + n % 0x40)
    ensures DecodeEscapes(s) == Some((n as char, 12))
  {
    var q := n / 0x40;
    var qq := q / 0x40;
    assert Continuation(s, 3) == Some(qq % 0x40);
    assert Continuation(s, 6) == Some(q % 0x40);
    assert Continuation(s, 9) == Some(n % 0x40);
    assert (qq / 0x40) * 0x40 + qq % 0x40 == qq;
    assert qq * 0x40 + q % 0x40 == q;
  }

  lemma DecodeEscapesOfOneByte(c: char, rest: string)
    requires !AlwaysSafe(c) && c != ' ' && c as int < 0x80
    ensures |Utf8(c)| == 1 && DecodeEscapes(QuoteChar(c) + rest) == Some((c, 3))
  {
    var s := QuoteChar(c) + rest;
    assert s == EscapeAll(Utf8(c)) + rest;
    EscapeAllAt(Utf8(c), 0, rest);
    DecodeOne(s, c as int);
  }

  lemma DecodeEscapesOfTwoBytes(c: char, rest: string)
    requires 0x80 <= c as int < 0x800
    ensures |Utf8(c)| == 2 && DecodeEscapes(QuoteChar(c) + rest) == Some((c, 6))
  {
    var n, s := c as int, QuoteChar(c) + rest;
    var bytes := [0xC0 + n / 0x40, 0x80 + n % 0x40];
    assert Utf8(c) == bytes;
    assert s == EscapeAll(bytes) + rest;
    EscapeAllAt(bytes, 0, rest);
    EscapeAllAt(bytes, 1, rest);
    DecodeTwo(s, n);
  }

  lemma DecodeEscapesOfThreeBytes(c: char, rest: string)
    requires 0x800 <= c as int < 0x1_0000
    ensures |Utf8(c)| == 3 && DecodeEscapes(QuoteChar(c) + rest) == Some((c, 9))
  {
    var n, s := c as int, QuoteChar(c) + rest;
    var bytes := [0xE0 + n / 0x40 / 0x40, 0x80 + n / 0x40 % 0x40, 0x80 + n % 0x40];
    assert Utf8(c) == bytes;
    assert s == EscapeAll(bytes) + rest;
    EscapeAllAt(bytes, 0, rest);
    EscapeAllAt(bytes, 1, rest);
    EscapeAllAt(bytes, 2, rest);
    DecodeThree(s, n);
  }

  lemma DecodeEscapesOfFourBytes(c: char, rest: string)
    requires 0x1_0000 <= c as int
    ensures |Utf8(c)| == 4 && DecodeEscapes(QuoteChar(c) + rest) == Some((c, 12))
  {
    var n, s := c as int, QuoteChar(c) + rest;
    var bytes := [0xF0 + n / 0x40 / 0x40 / 0x40, 0x80 + n / 0x40 / 0x40 % 0x40, 0x80 + n / 0x40 % 0x40, 0x80 + n % 0x40];
    assert Utf8(c) == bytes;
    assert s == EscapeAll(bytes) + rest;
    EscapeAllAt(bytes, 0, rest);
    EscapeAllAt(bytes, 1, rest);
    EscapeAllAt(bytes, 2, rest);
    EscapeAllAt(bytes, 3, rest);
    DecodeFour(s, n);
  }

  /** The escapes of a character's UTF-8 bytes decode back to the character. */
  lemma DecodeEscapesOfChar(c: char, rest: string)
    requires !AlwaysSafe(c) && c != ' '
    ensures DecodeEscapes(QuoteChar(c) + rest) == Some((c, 3 * |Utf8(c)|))
  {
    var n := c as int;
    if n < 0x80 {
      DecodeEscapesOfOneByte(c, rest);
    } else if n < 0x800 {
      DecodeEscapesOfTwoBytes(c, rest);
    } else if n < 0x1_0000 {
      DecodeEscapesOfThreeBytes(c, rest);
    } else {
      DecodeEscapesOfFourBytes(c, rest);
    }
  }

  lemma {:induction false} UnquoteQuoteChar(c: char, rest: string)
    ensures UnquotePlus(QuoteChar(c) + rest) == [c] + UnquotePlus(rest)
  {
    var s := QuoteChar(c) + rest;
    if AlwaysSafe(c) {
      assert s[1..] == rest;
    } else if c == ' ' {
      assert s[1..] == rest;
    } else {
      DecodeEscapesOfChar(c, rest);
      assert s[0] == '%';
      assert s[3 * |Utf8(c)|..] == rest;
    }
  }

  /** `quote_plus` loses nothing: decoding gives the original text back. */
  lemma {:induction false} UnquoteQuotePlus(s: string)
    ensures UnquotePlus(QuotePlus(s)) == s
  {
    if s != [] {
      UnquoteQuoteChar(s[0], QuotePlus(s[1..]));
      UnquoteQuotePlus(s[1..]);
    }
  }

  lemma {:induction false} SplitWithout(a: string, sep: char)
    requires sep !in a
    ensures Split(a, sep) == [a]
    decreases |a|
  {
    if a != [] {
      SplitWithout(a[1..], sep);
      assert [a[0]] + a[1..] == a;
    }
  }

  lemma {:induction false} SplitAtFirst(a: string, sep: char, b: string)
    requires sep !in a
    ensures Split(a + [sep] + b, sep) == [a] + Split(b, sep)
    decreases |a|
  {
    if a == [] {
      assert (a + [sep] + b)[1..] == b;
    } else {
      assert (a + [sep] + b)[1..] == a[1..] + [sep] + b;
      SplitAtFirst(a[1..], sep, b);
      assert [a[0]] + a[1..] == a;
    }
  }

  lemma {:induction false} SplitFirstAt(a: string, sep: char, b: string)
    requires sep !in a
    ensures SplitFirst(a + [sep] + b, sep) == (a, Some(b))
    decreases |a|
  {
    if a == [] {
      assert (a + [sep] + b)[1..] == b;
    } else {
      assert (a + [sep] + b)[1..] == a[1..] + [sep] + b;
      SplitFirstAt(a[1..], sep, b);
      assert [a[0]] + a[1..] == a;
    }
  }

  lemma DecodeEncodedPair(p: (string, string))
    ensures '&' !in EncodePair(p)
    ensures DecodePair(EncodePair(p)) == p
  {
    var k, v := QuotePlus(p.0), QuotePlus(p.1);
    assert '=' !in k && '&' !in k && '&' !in v by {
      if '=' in k || '&' in k || '&' in v {
        assert false;
      }
    }
    SplitFirstAt(k, '=', v);
    UnquoteQuotePlus(p.0);
    UnquoteQuotePlus(p.1);
  }

  /** `urlencode` loses nothing: the query decodes to the same pairs, in order. */
  lemma {:induction false} UrlEncodeRoundTrip(pairs: seq<(string, string)>)
    ensures ParseQuery(UrlEncode(pairs)) == pairs
    decreases |pairs|
  {
    if pairs == [] {
    } else if |pairs| == 1 {
      DecodeEncodedPair(pairs[0]);
      assert EncodePair(pairs[0]) != "";
      SplitWithout(EncodePair(pairs[0]), '&');
    } else {
      var head, tail := EncodePair(pairs[0]), UrlEncode(pairs[1..]);
      DecodeEncodedPair(pairs[0]);
      SplitAtFirst(head, '&', tail);
      UrlEncodeRoundTrip(pairs[1..]);
      assert tail != "" by {
        if |pairs[1..]| == 1 {
          assert tail == EncodePair(pairs[1]);
        } else {
          assert tail == EncodePair(pairs[1]) + "&" + UrlEncode(pairs[2..]);
        }
      }
      var fields := Split(head + "&" + tail, '&');
      assert fields == [head] + Split(tail, '&');
      var parsed := ParseQuery(head + "&" + tail);
      assert parsed[0] == pairs[0];
      assert parsed[1..] == ParseQuery(tail);
    }
  }

  /** The authorize URL is the endpoint followed by a query that decodes to
      exactly `client_id` and `redirect_uri` (a setting left at None reads
      "None", as `str(None)` gives). */
  lemma AuthorizeUrlDecodes(o: OauthClient)
    ensures StartsWith(AUTHORIZE_PREFIX, AuthorizeUrl(o))
    ensures ParseQuery(AuthorizeUrl(o)[|AUTHORIZE_PREFIX|..]) ==
            [("client_id", PyStr(o.clientId)), ("redirect_uri", PyStr(o.redirectUri))]
  {
    var pairs := [("client_id", PyStr(o.clientId)), ("redirect_uri", PyStr(o.redirectUri))];
    assert AuthorizeUrl(o)[|AUTHORIZE_PREFIX|..] == UrlEncode(pairs);
    UrlEncodeRoundTrip(pairs);
  }

  // ---------------------------------------------------------------------
  // exchange_token.

  /** `requests`' `Response.ok`: false exactly for 4xx and 5xx statuses. */
  predicate IsOk(status: nat) {
    !(400 <= status < 600)
  }

  /** The query parameters as `requests` sends them: None values are dropped. */
  function TokenParams(o: OauthClient, code: string): (p: map<string, string>)
    ensures "code" in p && p["code"] == code
    ensures "client_id" in p <==> o.clientId.Some?
    ensures "client_secret" in p <==> o.clientSecret.Some?
    ensures "redirect_uri" in p <==> o.redirectUri.Some?
    ensures o.clientId.Some? ==> p["client_id"] == o.clientId.value
    ensures o.clientSecret.Some? ==> p["client_secret"] == o.clientSecret.value
    ensures o.redirectUri.Some? ==> p["redirect_uri"] == o.redirectUri.value
    ensures p.Keys <= {"client_id", "client_secret", "redirect_uri", "code"}
  {
    var p0 := map["code" := code];
    var p1 := if o.clientId.Some? then p0["client_id" := o.clientId.value] else p0;
    var p2 := if o.clientSecret.Some? then p1["client_secret" := o.clientSecret.value] else p1;
    if o.redirectUri.Some? then p2["redirect_uri" := o.redirectUri.value] else p2
  }

  function TokenRequest(o: OauthClient, code: string): Request {
    GetRequest(OAUTH_ROOT + "/access_token", TokenParams(o, code))
  }

  /** What `exchange_token` makes of the response: MixcloudOauthError unless
      the response is ok, otherwise the body's `access_token`. */
  function TokenFromResponse(resp: Response): (r: Result<Json>)
    ensures (r.Err? && r.error.OauthError?) <==> !IsOk(resp.status)
    ensures IsOk(resp.status) ==> r == Index(resp.body, "access_token")
  {
    if !IsOk(resp.status) then Err(OauthError("Could not get access token."))
    else Index(resp.body, "access_token")
  }

  /** `exchange_token(code)`: one GET straight through `requests` (not the
      status-200 wrapper), nothing stored. */
  method ExchangeToken(net: Network, o: OauthClient, code: string) returns (r: Result<Json>)
    modifies net
    ensures net.log == old(net.log) + [TokenRequest(o, code)]
    ensures r == TokenFromResponse(net.server(TokenRequest(o, code)))
  {
    var resp := net.Send(TokenRequest(o, code));
    if !IsOk(resp.status) {
      return Err(OauthError("Could not get access token."));
    }
    r := Index(resp.body, "access_token");
  }
}
