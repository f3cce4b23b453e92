/**
 * Small helpers shared by the handlers: the session cookie, timestamps,
 * the error replies, URL and header construction, the logged-out page
 * test, lenient integer parsing and hex encoding.
 */
module Utils {
  import opened Wrappers
  import opened Strings
  import opened Errors
  import opened Types
  import opened Http
  import opened Page

  // HTTP status codes the broker answers with.
  const OK: nat := 200
  const BAD_REQUEST: nat := 400
  const FORBIDDEN: nat := 403
  const NOT_FOUND: nat := 404
  const INTERNAL_SERVER_ERROR: nat := 500
  const BAD_GATEWAY: nat := 502
  const SERVICE_UNAVAILABLE: nat := 503

  /** Milliseconds in a minute. */
  const MINUTE_MS: nat := 60000

  /** The session cookie of a Set-Cookie header: the text before the first "; ", or all of it. */
  function GetAspCookie(header: string): (cookie: string)
    ensures !Contains(header, "; ") ==> cookie == header
    ensures Contains(header, "; ") ==>
      && !Contains(cookie, "; ")
      && exists rest :: header == cookie + "; " + rest
  {
    SplitFirst(header, "; ");
    if Contains(header, "; ") then
      var k := Find(header, "; ").value;
      assert header == header[..k] + "; " + header[k + 2..];
      SplitNth(header, "; ", 0).value
    else
      SplitNth(header, "; ", 0).value
  }

  /** The timestamp `minute` minutes after `now`, both in milliseconds. */
  function GetTimeAfter(now: nat, minute: nat): (t: nat)
    ensures t >= now
    ensures t - now == minute * MINUTE_MS
  {
    now + MINUTE_MS * minute
  }

  /**
   * An error reply for the API at `path`: the location is reported,
   * together with the path, exactly when one is given.
   */
  function ErrorMessage(path: string, code: nat, message: string, at: Option<string>, now: nat): (r: ErrorReturn)
    ensures r.status == code && r.body.message == message && r.body.timestamp == now
    ensures r.body.wrong.None? <==> at.None?
    ensures r.body.wrong.Some? ==> r.body.wrong.value == ResponseErrorAt(Some(path), None, at)
  {
    var wrong := match at
      case Some(a) => Some(ResponseErrorAt(Some(path), None, Some(a)))
      case None => None;
    ErrorReturn(code, ErrorResponse(message, now, wrong))
  }

  /** A page URL: the host followed by the path, with no slash normalisation. */
  function CombinePath(host: string, path: string): (url: string)
    ensures |url| == |host| + |path|
    ensures url[..|host|] == host && url[|host|..] == path
  {
    host + path
  }

  function CombinePagePath(host: string, page: APIPaths): string
  {
    CombinePath(host, Path(page))
  }

  /** A base ending in a slash gives a doubled slash, as every page path starts with one. */
  lemma DoubledSlash(host: string, page: APIPaths)
    requires |host| > 0 && host[|host| - 1] == '/'
    ensures CombinePagePath(host, page)[|host| - 1] == '/' && CombinePagePath(host, page)[|host|] == '/'
  {
    var url := CombinePagePath(host, page);
    assert url[..|host|][|host| - 1] == '/';
    assert url[|host|..][0] == Path(page)[0];
  }

  /** The only header the broker sends upstream: the session cookie. */
  function CreateAuthHeader(cookie: string): (headers: map<string, string>)
    ensures headers.Keys == {"Cookie"} && headers["Cookie"] == cookie
  {
    map["Cookie" := cookie]
  }

  /** A portal page fetched with the session cookie, as every session handler asks for one. */
  function SessionGet(host: string, cookie: string, page: APIPaths, send: Transport): Result<Response, HTTPErrorReturn>
  {
    HttpGet(CombinePagePath(host, page), Some(CreateAuthHeader(cookie)), send)
  }

  /**
   * The request behind it goes to the page under the session's host, with
   * the session cookie as its only header and no body, and is not
   * redirected.
   */
  lemma SessionRequest(host: string, cookie: string, page: APIPaths)
    ensures var req := HttpRequest(GET, CombinePagePath(host, page), Some(CreateAuthHeader(cookie)), None);
      && req.url[..|host|] == host && req.url[|host|..] == Path(page)
      && req.headers == map["Cookie" := cookie]
      && req.form.None? && !req.followRedirects
  {
  }

  /**
   * The checked page fetch the page handlers use (`http_get_html_err_handle`,
   * `http_get_err_handle`): given the route's path, a URL and headers, the
   * reply, or the error reply the route returns as it is. Its own code is
   * not part of this model.
   */
  type CheckedGet = (string, string, Option<map<string, string>>) -> Result<Response, ErrorReturn>

  /** A failed upstream request: 503 when it could not be completed, 502 when the portal answered with an error status. */
  function GenerateHttpError(path: string, err: HTTPErrorReturn, now: nat): (r: ErrorReturn)
    ensures err.RequestError? ==>
      && r.status == SERVICE_UNAVAILABLE
      && r.body.message == Message(RemoteServiceUnavailable)
      && r.body.wrong == Some(ResponseErrorAt(Some(path), None, Some("Remote server")))
    ensures err.StatusCodeError? ==>
      && r.status == BAD_GATEWAY
      && r.body.message == Message(ServerError)
      && r.body.wrong == Some(ResponseErrorAt(Some(path), None, Some("Return status code")))
    ensures r.body.timestamp == now
  {
    match err
    case RequestError => ErrorMessage(path, SERVICE_UNAVAILABLE, Message(RemoteServiceUnavailable), Some("Remote server"), now)
    case StatusCodeError(_) => ErrorMessage(path, BAD_GATEWAY, Message(ServerError), Some("Return status code"), now)
  }

  /** The portal session has expired: 403 with no location. */
  function GenerateSessionExpireError(path: string, now: nat): (r: ErrorReturn)
    ensures r.status == FORBIDDEN && r.body.message == Message(SessionExpired) && r.body.wrong.None?
    ensures r.body.timestamp == now
  {
    ErrorMessage(path, FORBIDDEN, Message(SessionExpired), None, now)
  }

  const NOT_LOGIN_SELECTOR: string := "body > div"
  const NOT_LOGIN_TEXT: string := "未登入"

  /**
   * Whether a portal page is still logged in: yes when the page has no
   * "body > div" at all, and otherwise unless a text node of the first
   * such div is exactly the "not logged in" marker.
   */
  function IsDocumentLogined(document: Element): (logined: bool)
    ensures Select(document, NOT_LOGIN_SELECTOR) == [] ==> logined
    ensures Select(document, NOT_LOGIN_SELECTOR) != [] ==>
      (!logined <==> exists i | 0 <= i < |Select(document, NOT_LOGIN_SELECTOR)[0].texts| ::
                       Select(document, NOT_LOGIN_SELECTOR)[0].texts[i] == NOT_LOGIN_TEXT)
  {
    match First(document, NOT_LOGIN_SELECTOR)
    case None => true
    case Some(div) => NOT_LOGIN_TEXT !in div.texts
  }

  /** The marker must be a whole text node: a longer text node holding it does not count. */
  lemma MarkerIsWholeTextNode(document: Element, div: Element)
    requires Select(document, NOT_LOGIN_SELECTOR) == [div]
    requires div.texts == ["您尚" + NOT_LOGIN_TEXT]
    ensures IsDocumentLogined(document)
  {
    assert |"您尚" + NOT_LOGIN_TEXT| != |NOT_LOGIN_TEXT|;
  }

  /** `parse::<u32>`, with 0 for anything that does not parse. */
  function ConvertStringToU32(s: string): (n: nat)
    ensures n < U32_LIMIT
    ensures ParseU32(s).Some? ==> n == ParseU32(s).value
    ensures ParseU32(s).None? ==> n == 0
  {
    match ParseU32(s)
    case Some(v) => v
    case None => 0
  }

  /** Every `u32` survives printing and lenient parsing; text that does not parse becomes 0. */
  lemma ConvertRoundTrip(n: nat)
    requires n < U32_LIMIT
    ensures ConvertStringToU32(DecimalString(n)) == n
    ensures ConvertStringToU32("") == 0 && ConvertStringToU32("+") == 0
  {
    ParseDecimal(n);
  }

  // ---------------------------------------------------------------------
  // Hex encoding

  function HexDigit(d: nat): (c: char)
    requires d < 16
  {
    if d < 10 then '0' + d as char else 'a' + (d - 10) as char
  }

  function HexDigitValue(c: char): Option<nat>
  {
    if '0' <= c <= '9' then Some((c - '0') as nat)
    else if 'a' <= c <= 'f' then Some((c - 'a') as nat + 10)
    else None
  }

  /** A byte as two zero-padded lowercase hex digits, as `format!` writes it. */
  function HexByte(b: bv8): (s: string)
    ensures |s| == 2
  {
    [HexDigit(b as nat / 16), HexDigit(b as nat % 16)]
  }

  predicate IsLowerHex(c: char)
  {
    '0' <= c <= '9' || 'a' <= c <= 'f'
  }

  /** Lowercase hex of every byte, two digits each, in order. */
  function HexString(bytes: seq<bv8>): (s: string)
    ensures |s| == 2 * |bytes|
    ensures forall i | 0 <= i < |s| :: IsLowerHex(s[i])
  {
    if bytes == [] then "" else HexByte(bytes[0]) + HexString(bytes[1..])
  }

  /** The hex of a prefix is the prefix of the hex. */
  lemma {:induction false} HexStringPrefix(bytes: seq<bv8>, n: nat)
    requires n <= |bytes|
    ensures HexString(bytes)[..2 * n] == HexString(bytes[..n])
    decreases n
  {
    if n > 0 {
      HexStringPrefix(bytes[1..], n - 1);
      assert bytes[..n][1..] == bytes[1..][..n - 1];
      assert bytes[..n][0] == bytes[0];
    }
  }

  function HexDecode(s: string): Option<seq<bv8>>
    decreases |s|
  {
    if s == [] then Some([])
    else if |s| < 2 then None
    else match (HexDigitValue(s[0]), HexDigitValue(s[1]), HexDecode(s[2..]))
      case (Some(h), Some(l), Some(rest)) => Some([(h * 16 + l) as bv8] + rest)
      case _ => None
  }

  lemma HexDigitRoundTrip(d: nat)
    requires d < 16
    ensures HexDigitValue(HexDigit(d)) == Some(d)
  {
  }

  lemma HexByteRoundTrip(b: bv8)
    ensures HexDigitValue(HexByte(b)[0]) == Some(b as nat / 16)
    ensures HexDigitValue(HexByte(b)[1]) == Some(b as nat % 16)
  {
    HexDigitRoundTrip(b as nat / 16);
    HexDigitRoundTrip(b as nat % 16);
  }

  /** A byte is its high digit times sixteen plus its low digit. */
  lemma ByteOfDigits(b: bv8)
    ensures ((b as nat / 16) * 16 + b as nat % 16) as bv8 == b
  {
    var n := b as nat;
    assert n / 16 * 16 + n % 16 == n;
  }

  /** The corrected encoding can be decoded back to the bytes it came from. */
  lemma {:induction false} HexRoundTrip(bytes: seq<bv8>)
    ensures HexDecode(HexString(bytes)) == Some(bytes)
  {
    if bytes != [] {
      var s := HexString(bytes);
      HexByteRoundTrip(bytes[0]);
      ByteOfDigits(bytes[0]);
      HexRoundTrip(bytes[1..]);
      assert s[2..] == HexString(bytes[1..]);
      assert s[0] == HexByte(bytes[0])[0] && s[1] == HexByte(bytes[0])[1];
      assert [bytes[0]] + bytes[1..] == bytes;
    }
  }

  /** `u8::to_ascii_lowercase`. */
  function LowerByte(b: bv8): bv8
  {
    if 0x41 <= b <= 0x5A then b + 0x20 else b
  }

  /** `[u8]::to_ascii_lowercase`: every byte lowercased, in order. */
  function AsciiLowercase(buffer: seq<bv8>): (r: seq<bv8>)
    ensures |r| == |buffer|
    ensures forall i | 0 <= i < |buffer| :: r[i] == LowerByte(buffer[i])
  {
    seq(|buffer|, i requires 0 <= i < |buffer| => LowerByte(buffer[i]))
  }

  /**
   * `vecu8_to_hex_string` as written: the bytes are lowercased as ASCII
   * before they are formatted, so the text is the lowercase hex, two
   * digits per byte, of the lowercased bytes, and decodes back to them.
   */
  function VecU8ToHexString(buffer: seq<bv8>): (s: string)
    ensures |s| == 2 * |buffer|
    ensures forall i | 0 <= i < |s| :: IsLowerHex(s[i])
    ensures HexDecode(s) == Some(AsciiLowercase(buffer))
  {
    HexRoundTrip(AsciiLowercase(buffer));
    HexString(AsciiLowercase(buffer))
  }

  /**
   * As written, two byte strings share an encoding exactly when they agree
   * after ASCII lowercasing, so the encoding loses the case of every letter.
   */
  lemma SameHexIffSameLowercase(a: seq<bv8>, b: seq<bv8>)
    ensures VecU8ToHexString(a) == VecU8ToHexString(b) <==> AsciiLowercase(a) == AsciiLowercase(b)
  {
    if VecU8ToHexString(a) == VecU8ToHexString(b) {
      assert Some(AsciiLowercase(a)) == Some(AsciiLowercase(b));
    }
  }

  /** As written, two different byte strings can share an encoding: 0x41 and 0x61 both give "61". */
  lemma HexCollision()
    ensures [0x41 as bv8] != [0x61 as bv8]
    ensures VecU8ToHexString([0x41]) == VecU8ToHexString([0x61]) == "61"
  {
    assert AsciiLowercase([0x41]) == [0x61];
    assert AsciiLowercase([0x61]) == [0x61];
  }
}
