/**
 * Phase 2 of a login: post the user's credentials to the portal with the
 * phase-1 cookie and anti-forgery key; when the portal redirects, read the
 * short profile and hand back a signed session token.
 */
module LoginApi {
  import opened Wrappers
  import opened Strings
  import opened Errors
  import opened Types
  import opened Http
  import opened Utils
  import opened Secure
  import opened RequestHandler
  import opened GetUserInfoShort

  const API_PATH: string := "/v1/login"

  /** The division the broker always logs in to. */
  const DIVISION: string := "senior"

  const LOGIN_MESSAGE: string := "Login successful!"

  /** The credentials the client sends. */
  datatype IncomingData = IncomingData(username: string, password: string, vcode: string)

  /** The form posted to the portal, in declaration order: the anti-forgery key, the division, the credentials, an empty id and the captcha. */
  function LoginForm(token: LoginInfoAuthToken, data: IncomingData): seq<(string, string)>
  {
    [("__RequestVerificationToken", token.site_key),
     ("division", DIVISION),
     ("Loginid", data.username),
     ("LoginPwd", data.password),
     ("Uid", ""),
     ("vcode", data.vcode)]
  }

  /** The refusal of a body that did not parse: the missing fields by name, or the content type. */
  function BodyError(err: IncomingError, now: nat): (r: ErrorReturn)
    ensures r.status == BAD_REQUEST && r.body.wrong.Some?
    ensures err.MissingArguments? ==>
      r.body.message == "Argument is not satisfied" && r.body.wrong.value.at == Some("Argument: " + Join(err.args, ", "))
    ensures err.InvalidMediaType? ==>
      r.body.message == "Content-Type is not provided" && r.body.wrong.value.at == Some("Header: Content-Type")
  {
    match err
    case MissingArguments(args) =>
      ErrorMessage(API_PATH, BAD_REQUEST, "Argument is not satisfied", Some("Argument: " + Join(args, ", ")), now)
    case InvalidMediaType =>
      ErrorMessage(API_PATH, BAD_REQUEST, "Content-Type is not provided", Some("Header: Content-Type"), now)
  }

  /** Credentials the portal did not accept: 403 with no location. */
  function LoginFailed(now: nat): (r: ErrorReturn)
    ensures r.status == FORBIDDEN && r.body.wrong.None?
  {
    ErrorMessage(API_PATH, FORBIDDEN, "Login failed", None, now)
  }

  /** The post of the credentials. */
  function PostCredentials(auth: LoginInfoAuthToken, data: IncomingData, send: Transport): Result<Response, HTTPErrorReturn>
  {
    HttpPost(CombinePagePath(auth.host, APIPaths.Login), LoginForm(auth, data), Some(CreateAuthHeader(auth.cookie)), send)
  }

  /** The session claims for a profile: the phase-1 host and cookie, issued now. */
  function SessionClaims(auth: LoginInfoAuthToken, profile: UserProfileShortValue, expiredMinutes: nat, now: nat): AuthToken
  {
    AuthToken(auth.host, auth.cookie, profile, now, GetTimeAfter(now, expiredMinutes))
  }

  /**
   * The route. A body that did not parse is refused by BodyError; a post
   * that fails is reported as any upstream failure; only a redirect counts
   * as a successful login, and then the short profile must be readable,
   * else the login failed (403). A short user page or a token that does
   * not sign panics.
   */
  function Api(auth: LoginInfoAuthToken, data: Result<IncomingDataWrapper<IncomingData>, IncomingError>,
               send: Transport, kp: KeyPair, encode: Encoder, expiredMinutes: nat, now: nat): (r: Reply<Types.Login>)
    ensures data.Err? ==> r == Fail(BodyError(data.error, now))
    ensures data.Ok? && PostCredentials(auth, DecodeIncoming(data.value), send).Err? ==>
      r == Fail(GenerateHttpError(API_PATH, PostCredentials(auth, DecodeIncoming(data.value), send).error, now))
    ensures data.Ok? && PostCredentials(auth, DecodeIncoming(data.value), send).Ok?
                     && !IsRedirection(PostCredentials(auth, DecodeIncoming(data.value), send).value.status) ==>
      r == Fail(LoginFailed(now))
    ensures data.Ok? && PostCredentials(auth, DecodeIncoming(data.value), send).Ok?
                     && IsRedirection(PostCredentials(auth, DecodeIncoming(data.value), send).value.status)
                     && GetInfoFromWeb(auth, send).Fail? ==>
      r == Fail(LoginFailed(now))
    ensures data.Ok? && PostCredentials(auth, DecodeIncoming(data.value), send).Ok?
                     && IsRedirection(PostCredentials(auth, DecodeIncoming(data.value), send).value.status)
                     && GetInfoFromWeb(auth, send).Done?
                     && SignJwt(kp, EncodeAuthToken(SessionClaims(auth, GetInfoFromWeb(auth, send).value, expiredMinutes, now)), encode).Some? ==>
      r.Done?
    ensures data.Ok? && PostCredentials(auth, DecodeIncoming(data.value), send).Ok?
                     && IsRedirection(PostCredentials(auth, DecodeIncoming(data.value), send).value.status)
                     && GetInfoFromWeb(auth, send).Panic? ==>
      r.Panic?
    ensures data.Ok? && PostCredentials(auth, DecodeIncoming(data.value), send).Ok?
                     && IsRedirection(PostCredentials(auth, DecodeIncoming(data.value), send).value.status)
                     && GetInfoFromWeb(auth, send).Done?
                     && SignJwt(kp, EncodeAuthToken(SessionClaims(auth, GetInfoFromWeb(auth, send).value, expiredMinutes, now)), encode).None? ==>
      r.Panic?
    ensures r.Done? ==>
      && data.Ok?
      && PostCredentials(auth, DecodeIncoming(data.value), send).Ok?
      && IsRedirection(PostCredentials(auth, DecodeIncoming(data.value), send).value.status)
      && GetInfoFromWeb(auth, send).Done?
      && r.value.message == LOGIN_MESSAGE
      && SignJwt(kp, EncodeAuthToken(SessionClaims(auth, GetInfoFromWeb(auth, send).value, expiredMinutes, now)), encode)
         == Some(r.value.authtoken)
    ensures r.Panic? ==>
      || GetInfoFromWeb(auth, send).Panic?
      || (GetInfoFromWeb(auth, send).Done?
          && SignJwt(kp, EncodeAuthToken(SessionClaims(auth, GetInfoFromWeb(auth, send).value, expiredMinutes, now)), encode).None?)
  {
    match data
    case Err(err) => Fail(BodyError(err, now))
    case Ok(incoming) =>
      match PostCredentials(auth, DecodeIncoming(incoming), send)
      case Err(err) => Fail(GenerateHttpError(API_PATH, err, now))
      case Ok(resp) =>
        if !IsRedirection(resp.status) then Fail(LoginFailed(now))
        else
          match GetInfoFromWeb(auth, send)
          case Panic => Panic
          case Fail(_) => Fail(LoginFailed(now))
          case Done(profile) =>
            match SignJwt(kp, EncodeAuthToken(SessionClaims(auth, profile, expiredMinutes, now)), encode)
            case None => Panic
            case Some(token) => Done(Types.Login(LOGIN_MESSAGE, token))
  }

  /**
   * The credentials go to the portal's login page under the phase-1 host,
   * with the phase-1 cookie and key, as a form, and the redirect is not
   * followed.
   */
  lemma CredentialsPost(auth: LoginInfoAuthToken, data: IncomingData)
    ensures var req := HttpRequest(POST, CombinePagePath(auth.host, APIPaths.Login), Some(CreateAuthHeader(auth.cookie)), Some(LoginForm(auth, data)));
      && req.url == auth.host + "/login.asp"
      && req.headers == map["Cookie" := auth.cookie, "Content-Type" := FORM_CONTENT_TYPE]
      && req.form.Some? && |req.form.value| == 6
      && req.form.value[0] == ("__RequestVerificationToken", auth.site_key)
      && req.form.value[1] == ("division", "senior")
      && req.form.value[2] == ("Loginid", data.username)
      && req.form.value[3] == ("LoginPwd", data.password)
      && req.form.value[4] == ("Uid", "")
      && req.form.value[5] == ("vcode", data.vcode)
      && !req.followRedirects
  {
    var req := HttpRequest(POST, CombinePagePath(auth.host, APIPaths.Login), Some(CreateAuthHeader(auth.cookie)), Some(LoginForm(auth, data)));
    assert Path(APIPaths.Login) == "/login.asp";
    assert req.headers.Keys == {"Cookie", "Content-Type"};
  }

  /**
   * The session token decodes, under a library whose decode inverts its
   * encode, to claims for the same portal and cookie as the phase-1 token
   * and the profile read at login; it is not a phase-1 token.
   */
  lemma SessionTokenDecodes(auth: LoginInfoAuthToken, data: Result<IncomingDataWrapper<IncomingData>, IncomingError>,
                            send: Transport, kp: KeyPair, encode: Encoder, decode: Decoder, expiredMinutes: nat, now: nat)
    requires Inverts(kp, encode, decode)
    requires now + expiredMinutes * MINUTE_MS < U128_LIMIT
    requires Api(auth, data, send, kp, encode, expiredMinutes, now).Done?
    ensures var token := Api(auth, data, send, kp, encode, expiredMinutes, now).value.authtoken;
      && DecodeJwt(kp, token, decode, DecodeAuthToken).Ok?
      && var t := DecodeJwt(kp, token, decode, DecodeAuthToken).value;
      && t.host == auth.host && t.cookie == auth.cookie
      && t.user_data == GetInfoFromWeb(auth, send).value
      && t.exp - t.iat == expiredMinutes * MINUTE_MS
      && DecodeJwt(kp, token, decode, DecodeLoginInfo) == Err(Invalid)
  {
    var token := Api(auth, data, send, kp, encode, expiredMinutes, now).value.authtoken;
    var t := SessionClaims(auth, GetInfoFromWeb(auth, send).value, expiredMinutes, now);
    assert encode(kp.algorithm, EncodeAuthToken(t), kp.privatePem) == Some(token);
    SessionTokenRoundTrip(kp, t, token, encode, decode);
  }

  /**
   * The short-profile route answers, for the session token handed out at
   * login, exactly the profile read from the portal at login.
   */
  lemma ProfileSurvivesLogin(auth: LoginInfoAuthToken, data: Result<IncomingDataWrapper<IncomingData>, IncomingError>,
                             send: Transport, kp: KeyPair, encode: Encoder, decode: Decoder, expiredMinutes: nat, now: nat)
    requires Inverts(kp, encode, decode)
    requires now + expiredMinutes * MINUTE_MS < U128_LIMIT
    requires Api(auth, data, send, kp, encode, expiredMinutes, now).Done?
    ensures var token := Api(auth, data, send, kp, encode, expiredMinutes, now).value.authtoken;
      && DecodeJwt(kp, token, decode, DecodeAuthToken).Ok?
      && GetUserInfoShort.Api(DecodeJwt(kp, token, decode, DecodeAuthToken).value).value.data == GetInfoFromWeb(auth, send).value
      && CleanProfile(GetUserInfoShort.Api(DecodeJwt(kp, token, decode, DecodeAuthToken).value).value.data)
  {
    SessionTokenDecodes(auth, data, send, kp, encode, decode, expiredMinutes, now);
  }
}
