/**
 * Phase 1 of a login: probe the portal at the host the client names,
 * check that it is the expected portal, and hand back a signed token
 * carrying the portal's base URL, its anti-forgery key and the fresh
 * session cookie.
 */
module GetLoginInfo {
  import opened Wrappers
  import opened Strings
  import opened Errors
  import opened Types
  import opened Http
  import opened Page
  import opened Utils
  import opened Secure

  const API_PATH: string := "/v1/getLoginInfo"

  const CHECK_SELECTOR: string := "meta[name=keywords]"
  const VERIFY_CODE_SELECTOR: string := "input[name=__RequestVerificationToken]"
  const CAPTCHA_CHECK_SELECTOR: string := "img#imgvcode"

  /** The keywords the expected portal announces in its meta tag. */
  const PORTAL_KEYWORDS: string := "欣河資訊"

  /** Header names are compared case-insensitively; the map holds them in lower case. */
  const SET_COOKIE: string := "set-cookie"

  /** What the URL parser reports: the scheme, and the host when the URL has one. */
  datatype Url = Url(scheme: string, host: Option<string>)

  /** An error reply of this route, always with a location. */
  function ErrorAt(code: nat, message: string, at: string, now: nat): (r: ErrorReturn)
    ensures r.status == code && r.body.message == message
    ensures r.body.wrong == Some(ResponseErrorAt(Some(API_PATH), None, Some(at)))
  {
    ErrorMessage(API_PATH, code, message, Some(at), now)
  }

  /** The portal's base URL: scheme and host of the given URL, with the portal's "/online/" root. */
  function BaseUrl(scheme: string, host: string): (base: string)
    ensures |base| >= |scheme| + 8 && base[..|scheme|] == scheme
    ensures base[|base| - 8..] == "/online/"
  {
    scheme + "://" + host + "/online/"
  }

  /**
   * A failed probe: unreachable is 503, a 404 means the host is not a
   * portal (400), any other error status is 502.
   */
  function ProbeError(err: HTTPErrorReturn, now: nat): (r: ErrorReturn)
    ensures err == StatusCodeError(NOT_FOUND) <==> r.status == BAD_REQUEST
    ensures r.status == BAD_REQUEST ==> r.body.message == Message(NotAValidHost)
    ensures err.RequestError? <==> r.status == SERVICE_UNAVAILABLE
    ensures r.body.wrong.Some? && r.body.wrong.value.api == Some(API_PATH) && r.body.timestamp == now
    ensures err.RequestError? ==>
      && r.body.message == Message(RemoteServiceUnavailable)
      && r.body.wrong.value.at == Some("Remote server")
    ensures err == StatusCodeError(NOT_FOUND) ==> r.body.wrong.value.at == Some("Argument: host")
    ensures err.StatusCodeError? && err != StatusCodeError(NOT_FOUND) ==>
      && r.status == BAD_GATEWAY
      && r.body.message == Message(ServerError)
      && r.body.wrong.value.at == Some("Return status code")
  {
    match err
    case RequestError => ErrorAt(SERVICE_UNAVAILABLE, Message(RemoteServiceUnavailable), "Remote server", now)
    case StatusCodeError(code) =>
      if code == NOT_FOUND then ErrorAt(BAD_REQUEST, Message(NotAValidHost), "Argument: host", now)
      else ErrorAt(BAD_GATEWAY, Message(ServerError), "Return status code", now)
  }

  /** The refusal for a host that does not serve the expected portal. */
  function NotAPortal(now: nat): ErrorReturn
  {
    ErrorAt(BAD_REQUEST, Message(NotAValidHost), "Argument: host", now)
  }

  /** The probe page is the expected portal: its keywords meta tag, if any, says so. */
  predicate IsPortal(document: Element)
  {
    && First(document, CHECK_SELECTOR).Some?
    && Attr(First(document, CHECK_SELECTOR).value, "content") == Some(PORTAL_KEYWORDS)
  }

  /**
   * The phase-1 claims for a probed portal: its base URL, the value of its
   * anti-forgery input, the session cookie, whether a captcha image is
   * shown, issued now and expiring `expiredMinutes` later.
   */
  function PhaseOneClaims(base: string, resp: Response, expiredMinutes: nat, now: nat): LoginInfoAuthToken
    requires SET_COOKIE in resp.headers
    requires First(resp.document, VERIFY_CODE_SELECTOR).Some?
    requires Attr(First(resp.document, VERIFY_CODE_SELECTOR).value, "value").Some?
  {
    LoginInfoAuthToken(
      host := base,
      site_key := Attr(First(resp.document, VERIFY_CODE_SELECTOR).value, "value").value,
      cookie := GetAspCookie(resp.headers[SET_COOKIE]),
      need_captcha := First(resp.document, CAPTCHA_CHECK_SELECTOR).Some?,
      iat := now,
      exp := GetTimeAfter(now, expiredMinutes))
  }

  /**
   * The route. A missing host is 400; a URL that does not parse is 500 and
   * one without a host panics; a failed probe is reported by ProbeError;
   * a reply without a cookie is 503; a page that is not the portal is 400,
   * and one whose keywords tag has no content panics; the portal page must
   * carry the anti-forgery input with a value, and the token must sign,
   * or the route panics.
   */
  function Api(host: Option<string>, parseUrl: string -> Option<Url>, send: Transport,
               kp: KeyPair, encode: Encoder, expiredMinutes: nat, now: nat): (r: Reply<LoginInfo>)
    ensures host.None? ==> r == Fail(ErrorAt(BAD_REQUEST, "Wrong arguments", "Argument: host", now))
    ensures host.Some? && parseUrl(host.value).None? ==>
      r == Fail(ErrorAt(INTERNAL_SERVER_ERROR, Message(ServerError), "Parsing host url", now))
    ensures host.Some? && parseUrl(host.value).Some? && parseUrl(host.value).value.host.None? ==> r.Panic?
    ensures host.Some? && parseUrl(host.value).Some? && parseUrl(host.value).value.host.Some? ==>
      var url := parseUrl(host.value).value;
      var probe := HttpGet(BaseUrl(url.scheme, url.host.value), None, send);
      && (probe.Err? ==> r == Fail(ProbeError(probe.error, now)))
      && (probe.Ok? && SET_COOKIE !in probe.value.headers ==>
            r == Fail(ErrorAt(SERVICE_UNAVAILABLE, Message(RemoteServiceUnavailable), "Remote server", now)))
      && (probe.Ok? && SET_COOKIE in probe.value.headers && !IsPortal(probe.value.document)
          && (First(probe.value.document, CHECK_SELECTOR).None?
              || Attr(First(probe.value.document, CHECK_SELECTOR).value, "content").Some?) ==>
            r == Fail(NotAPortal(now)))
      && (probe.Ok? && SET_COOKIE in probe.value.headers && First(probe.value.document, CHECK_SELECTOR).Some?
          && Attr(First(probe.value.document, CHECK_SELECTOR).value, "content").None? ==>
            r.Panic?)
      && (probe.Ok? && SET_COOKIE in probe.value.headers && IsPortal(probe.value.document)
          && (|| First(probe.value.document, VERIFY_CODE_SELECTOR).None?
              || Attr(First(probe.value.document, VERIFY_CODE_SELECTOR).value, "value").None?
              || SignJwt(kp, EncodeLoginInfo(PhaseOneClaims(BaseUrl(url.scheme, url.host.value), probe.value, expiredMinutes, now)), encode).None?) ==>
            r.Panic?)
      && (probe.Ok? && SET_COOKIE in probe.value.headers && IsPortal(probe.value.document)
          && First(probe.value.document, VERIFY_CODE_SELECTOR).Some?
          && Attr(First(probe.value.document, VERIFY_CODE_SELECTOR).value, "value").Some?
          && SignJwt(kp, EncodeLoginInfo(PhaseOneClaims(BaseUrl(url.scheme, url.host.value), probe.value, expiredMinutes, now)), encode).Some? ==>
            r.Done?)
    ensures r.Fail? ==> r.error.body.wrong.Some? && r.error.body.wrong.value.api == Some(API_PATH)
    ensures r.Fail? ==> r.error.status in {BAD_REQUEST, INTERNAL_SERVER_ERROR, BAD_GATEWAY, SERVICE_UNAVAILABLE}
    ensures r.Done? ==>
      && host.Some? && parseUrl(host.value).Some? && parseUrl(host.value).value.host.Some?
      && var url := parseUrl(host.value).value;
      && var base := BaseUrl(url.scheme, url.host.value);
      && HttpGet(base, None, send).Ok?
      && var resp := HttpGet(base, None, send).value;
      && IsPortal(resp.document)
      && SET_COOKIE in resp.headers
      && First(resp.document, VERIFY_CODE_SELECTOR).Some?
      && Attr(First(resp.document, VERIFY_CODE_SELECTOR).value, "value").Some?
      && SignJwt(kp, EncodeLoginInfo(PhaseOneClaims(base, resp, expiredMinutes, now)), encode) == Some(r.value.authToken)
      && r.value.need_captcha == PhaseOneClaims(base, resp, expiredMinutes, now).need_captcha
  {
    match host
    case None => Fail(ErrorAt(BAD_REQUEST, "Wrong arguments", "Argument: host", now))
    case Some(h) =>
      match parseUrl(h)
      case None => Fail(ErrorAt(INTERNAL_SERVER_ERROR, Message(ServerError), "Parsing host url", now))
      case Some(url) =>
        if url.host.None? then Panic
        else
          var base := BaseUrl(url.scheme, url.host.value);
          match HttpGet(base, None, send)
          case Err(err) => Fail(ProbeError(err, now))
          case Ok(resp) =>
            if SET_COOKIE !in resp.headers then
              Fail(ErrorAt(SERVICE_UNAVAILABLE, Message(RemoteServiceUnavailable), "Remote server", now))
            else
              match First(resp.document, CHECK_SELECTOR)
              case None => Fail(NotAPortal(now))
              case Some(meta) =>
                match Attr(meta, "content")
                case None => Panic
                case Some(content) =>
                  if content != PORTAL_KEYWORDS then Fail(NotAPortal(now))
                  else if First(resp.document, VERIFY_CODE_SELECTOR).None? then Panic
                  else if Attr(First(resp.document, VERIFY_CODE_SELECTOR).value, "value").None? then Panic
                  else
                    var claims := PhaseOneClaims(base, resp, expiredMinutes, now);
                    match SignJwt(kp, EncodeLoginInfo(claims), encode)
                    case None => Panic
                    case Some(token) => Done(LoginInfo(token, claims.need_captcha))
  }

  /** A 404 from the probe means the host is not a portal. */
  lemma NotFoundIsNotAHost(host: string, parseUrl: string -> Option<Url>, send: Transport,
                           kp: KeyPair, encode: Encoder, expiredMinutes: nat, now: nat)
    requires parseUrl(host).Some? && parseUrl(host).value.host.Some?
    requires var url := parseUrl(host).value;
      HttpGet(BaseUrl(url.scheme, url.host.value), None, send) == Err(StatusCodeError(NOT_FOUND))
    ensures Api(Some(host), parseUrl, send, kp, encode, expiredMinutes, now) == Fail(NotAPortal(now))
  {
  }

  /**
   * A reachable page whose keywords are not the portal's is refused as not
   * a portal, whatever else it carries.
   */
  lemma ForeignSiteRefused(host: string, parseUrl: string -> Option<Url>, send: Transport,
                           kp: KeyPair, encode: Encoder, expiredMinutes: nat, now: nat)
    requires parseUrl(host).Some? && parseUrl(host).value.host.Some?
    requires var url := parseUrl(host).value;
      var sent := HttpGet(BaseUrl(url.scheme, url.host.value), None, send);
      && sent.Ok? && SET_COOKIE in sent.value.headers
      && (First(sent.value.document, CHECK_SELECTOR).None?
          || Attr(First(sent.value.document, CHECK_SELECTOR).value, "content").Some?)
      && !IsPortal(sent.value.document)
    ensures Api(Some(host), parseUrl, send, kp, encode, expiredMinutes, now) == Fail(NotAPortal(now))
  {
  }

  /**
   * The token handed out decodes, under a library whose decode inverts its
   * encode, to phase-1 claims for the probed portal that expire exactly
   * `expiredMinutes` after they were issued; it is not a session token.
   */
  lemma IssuedTokenDecodes(host: string, parseUrl: string -> Option<Url>, send: Transport,
                           kp: KeyPair, encode: Encoder, decode: Decoder, expiredMinutes: nat, now: nat)
    requires Inverts(kp, encode, decode)
    requires now + expiredMinutes * MINUTE_MS < U128_LIMIT
    requires Api(Some(host), parseUrl, send, kp, encode, expiredMinutes, now).Done?
    ensures var reply := Api(Some(host), parseUrl, send, kp, encode, expiredMinutes, now).value;
      var url := parseUrl(host).value;
      && DecodeJwt(kp, reply.authToken, decode, DecodeLoginInfo).Ok?
      && var t := DecodeJwt(kp, reply.authToken, decode, DecodeLoginInfo).value;
      && t.host == BaseUrl(url.scheme, url.host.value)
      && t.need_captcha == reply.need_captcha
      && t.iat == now && t.exp - t.iat == expiredMinutes * MINUTE_MS
      && DecodeJwt(kp, reply.authToken, decode, DecodeAuthToken) == Err(Invalid)
  {
    var reply := Api(Some(host), parseUrl, send, kp, encode, expiredMinutes, now).value;
    var url := parseUrl(host).value;
    var base := BaseUrl(url.scheme, url.host.value);
    var resp := HttpGet(base, None, send).value;
    var t := PhaseOneClaims(base, resp, expiredMinutes, now);
    assert encode(kp.algorithm, EncodeLoginInfo(t), kp.privatePem) == Some(reply.authToken);
    PhaseOneTokenRoundTrip(kp, t, reply.authToken, encode, decode);
  }
}
