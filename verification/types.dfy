/**
 * The records the broker exchanges: the two token claim shapes, the
 * client-facing error body, the handler outcome, and the records each
 * page extractor produces.  Claim sets are also given as JSON objects so
 * that the two shapes can be compared field by field.
 */
module Types {
  import opened Wrappers

  /** One more than the largest `u128`. */
  const U128_LIMIT: nat := 0x1_0000_0000_0000_0000_0000_0000_0000_0000

  /** The identifier, key and initialisation vector of a cache entry. */
  datatype CacheKeyData = CacheKeyData(id: seq<bv8>, key: seq<bv8>, iv: seq<bv8>)

  /** The short profile cached inside a session token. */
  datatype UserProfileShortValue = UserProfileShortValue(
    className: string,
    classNumber: string,
    gender: string,
    schoolNumber: string,
    userName: string)

  /** Claims of the phase-1 token handed out before the credentials are posted. */
  datatype LoginInfoAuthToken = LoginInfoAuthToken(
    host: string,
    site_key: string,
    cookie: string,
    need_captcha: bool,
    iat: nat,
    exp: nat)

  /** Claims of the session token handed out after a successful login. */
  datatype AuthToken = AuthToken(
    host: string,
    cookie: string,
    user_data: UserProfileShortValue,
    iat: nat,
    exp: nat)

  /** Where a request went wrong. */
  datatype ResponseErrorAt = ResponseErrorAt(api: Option<string>, trace: Option<string>, at: Option<string>)

  /** The JSON body of every error reply. */
  datatype ErrorResponse = ErrorResponse(message: string, timestamp: nat, wrong: Option<ResponseErrorAt>)

  /** An error reply: an HTTP status and its JSON body. */
  datatype ErrorReturn = ErrorReturn(status: nat, body: ErrorResponse)

  /**
   * What a computation that may panic ends in: a value, an error, or a
   * panic (an `unwrap` of nothing, an index past the end).  The web
   * framework answers a panicking handler with a 500 reply.
   */
  datatype Outcome<+T, +E> = Done(value: T) | Fail(error: E) | Panic

  /** What a request handler ends in. */
  type Reply<T> = Outcome<T, ErrorReturn>

  /** The body of every successful reply: a message and the payload. */
  datatype Envelope<+T> = Envelope(message: string, data: T)

  /** Body of a successful /v1/getLoginInfo reply. */
  datatype LoginInfo = LoginInfo(authToken: string, need_captcha: bool)

  /** Body of a successful /v1/login reply. */
  datatype Login = Login(message: string, authtoken: string)

  /** One name/value pair of the full profile. */
  datatype UserDataValues = UserDataValues(name: string, value: string)

  /** The full profile with its photo as a data URL. */
  datatype UserCollect = UserCollect(data: seq<UserDataValues>, profileImg: string)

  /** One selectable examination; `kind` is the source's `type` field. */
  datatype AvailableScoreValue = AvailableScoreValue(name: string, term: nat, testID: string, times: nat, kind: nat, year: nat)

  /** One subject score. */
  datatype ScoreDataValue = ScoreDataValue(name: string, score: nat)

  /** One summary line under the score table. */
  datatype ScoreExtraData = ScoreExtraData(kind: string, value: string)

  /** A failed subject, for the score ("score") or the grade point ("gpa"). */
  datatype ScoreUnpass = ScoreUnpass(name: string, kind: string)

  datatype ScoreDataCollect = ScoreDataCollect(data: seq<ScoreDataValue>, extra: seq<ScoreExtraData>, unpass: seq<ScoreUnpass>)

  /** One reward or punishment record. */
  datatype RewardAndPunishDetailValue = RewardAndPunishDetailValue(
    execute: string,
    reason: string,
    signed: string,
    sold: Option<string>,
    start: string,
    kind: string,
    year: nat)

  /** How many times one kind of reward or punishment was given. */
  datatype RewardAndPunishStatus = RewardAndPunishStatus(kind: string, times: nat)

  datatype RewardAndPunishCollect = RewardAndPunishCollect(detail: seq<RewardAndPunishDetailValue>, status: seq<RewardAndPunishStatus>)

  /** One day of the absence record: a cell per period, None for an empty one. */
  datatype LackRecordValue = LackRecordValue(data: seq<Option<string>>, date: string, week: string)

  /** One absence category and its count. */
  datatype LackStatusValue = LackStatusValue(name: string, value: nat)

  datatype LackStatus = LackStatus(termDown: seq<LackStatusValue>, termUp: seq<LackStatusValue>)

  datatype LackCollect = LackCollect(record: seq<LackRecordValue>, total: LackStatus)

  // ---------------------------------------------------------------------
  // Claims as JSON objects

  /** The JSON values claims are made of. */
  datatype Json = JBool(b: bool) | JNum(n: int) | JStr(s: string) | JObj(fields: map<string, Json>)

  /** The fields of each claim shape. */
  const ProfileFields: set<string> := {"className", "classNumber", "gender", "schoolNumber", "userName"}
  const LoginInfoFields: set<string> := {"host", "site_key", "cookie", "need_captcha", "iat", "exp"}
  const AuthTokenFields: set<string> := {"host", "cookie", "user_data", "iat", "exp"}

  function GetString(m: map<string, Json>, k: string): (r: Option<string>)
    ensures r.Some? ==> k in m && m[k] == JStr(r.value)
    ensures k in m && m[k].JStr? ==> r == Some(m[k].s)
  {
    if k in m && m[k].JStr? then Some(m[k].s) else None
  }

  function GetBool(m: map<string, Json>, k: string): (r: Option<bool>)
    ensures r.Some? ==> k in m && m[k] == JBool(r.value)
    ensures k in m && m[k].JBool? ==> r == Some(m[k].b)
  {
    if k in m && m[k].JBool? then Some(m[k].b) else None
  }

  /** A `u128` field: a number in range. */
  function GetU128(m: map<string, Json>, k: string): (r: Option<nat>)
    ensures r.Some? ==> k in m && m[k] == JNum(r.value) && r.value < U128_LIMIT
    ensures k in m && m[k].JNum? && 0 <= m[k].n < U128_LIMIT ==> r == Some(m[k].n as nat)
  {
    if k in m && m[k].JNum? && 0 <= m[k].n < U128_LIMIT then Some(m[k].n as nat) else None
  }

  function EncodeProfile(p: UserProfileShortValue): (m: map<string, Json>)
    ensures m.Keys == ProfileFields
  {
    map["className" := JStr(p.className), "classNumber" := JStr(p.classNumber), "gender" := JStr(p.gender),
        "schoolNumber" := JStr(p.schoolNumber), "userName" := JStr(p.userName)]
  }

  /** Deserialising a profile: every field must be present with a string; other fields are ignored. */
  function DecodeProfile(m: map<string, Json>): (r: Option<UserProfileShortValue>)
    ensures r.Some? ==> ProfileFields <= m.Keys
  {
    match (GetString(m, "className"), GetString(m, "classNumber"), GetString(m, "gender"),
           GetString(m, "schoolNumber"), GetString(m, "userName"))
    case (Some(c), Some(n), Some(g), Some(s), Some(u)) => Some(UserProfileShortValue(c, n, g, s, u))
    case _ => None
  }

  /** The claim set a phase-1 token carries: exactly its six fields. */
  function EncodeLoginInfo(t: LoginInfoAuthToken): (m: map<string, Json>)
    ensures m.Keys == LoginInfoFields
  {
    map["host" := JStr(t.host), "site_key" := JStr(t.site_key), "cookie" := JStr(t.cookie),
        "need_captcha" := JBool(t.need_captcha), "iat" := JNum(t.iat), "exp" := JNum(t.exp)]
  }

  /** Deserialising phase-1 claims. */
  function DecodeLoginInfo(m: map<string, Json>): (r: Option<LoginInfoAuthToken>)
    ensures r.Some? ==> LoginInfoFields <= m.Keys
  {
    match (GetString(m, "host"), GetString(m, "site_key"), GetString(m, "cookie"),
           GetBool(m, "need_captcha"), GetU128(m, "iat"), GetU128(m, "exp"))
    case (Some(h), Some(k), Some(c), Some(n), Some(i), Some(e)) => Some(LoginInfoAuthToken(h, k, c, n, i, e))
    case _ => None
  }

  /** The claim set a session token carries: exactly its five fields, the profile nested as an object. */
  function EncodeAuthToken(t: AuthToken): (m: map<string, Json>)
    ensures m.Keys == AuthTokenFields
  {
    map["host" := JStr(t.host), "cookie" := JStr(t.cookie), "user_data" := JObj(EncodeProfile(t.user_data)),
        "iat" := JNum(t.iat), "exp" := JNum(t.exp)]
  }

  /** Deserialising session claims. */
  function DecodeAuthToken(m: map<string, Json>): (r: Option<AuthToken>)
    ensures r.Some? ==> AuthTokenFields <= m.Keys
  {
    if "user_data" in m && m["user_data"].JObj? then
      match (GetString(m, "host"), GetString(m, "cookie"), DecodeProfile(m["user_data"].fields),
             GetU128(m, "iat"), GetU128(m, "exp"))
      case (Some(h), Some(c), Some(p), Some(i), Some(e)) => Some(AuthToken(h, c, p, i, e))
      case _ => None
    else None
  }

  /** Claims whose timestamps fit the source's `u128` fields. */
  predicate LoginInfoInRange(t: LoginInfoAuthToken)
  {
    t.iat < U128_LIMIT && t.exp < U128_LIMIT
  }

  predicate AuthTokenInRange(t: AuthToken)
  {
    t.iat < U128_LIMIT && t.exp < U128_LIMIT
  }

  lemma ProfileRoundTrip(p: UserProfileShortValue)
    ensures DecodeProfile(EncodeProfile(p)) == Some(p)
  {
  }

  /** Phase-1 claims survive serialisation. */
  lemma LoginInfoRoundTrip(t: LoginInfoAuthToken)
    requires LoginInfoInRange(t)
    ensures DecodeLoginInfo(EncodeLoginInfo(t)) == Some(t)
  {
  }

  /** Session claims survive serialisation. */
  lemma AuthTokenRoundTrip(t: AuthToken)
    requires AuthTokenInRange(t)
    ensures DecodeAuthToken(EncodeAuthToken(t)) == Some(t)
  {
    ProfileRoundTrip(t.user_data);
  }

  /**
   * Neither shape's claims supply all required fields of the other, so a
   * phase-1 token is never accepted where a session token is expected,
   * nor the reverse.
   */
  lemma ClaimShapesExclusive(a: LoginInfoAuthToken, b: AuthToken)
    ensures !(AuthTokenFields <= LoginInfoFields) && !(LoginInfoFields <= AuthTokenFields)
    ensures DecodeAuthToken(EncodeLoginInfo(a)) == None
    ensures DecodeLoginInfo(EncodeAuthToken(b)) == None
  {
    assert "user_data" !in LoginInfoFields;
    assert "site_key" !in AuthTokenFields;
  }
}
