# hlhsinfo backend server — a Dafny model

The server is a stateless session broker in front of a legacy school portal.
A client logs in in two phases:

1. `/v1/getLoginInfo` probes the portal at the host the client names. It
   checks the keywords meta tag and hands back a signed phase-1 token. That
   token carries the portal's base URL, its anti-forgery key and the fresh
   session cookie.
2. `/v1/login` posts the credentials with that cookie. Only a redirect counts
   as success. The broker then reads the short profile and hands back a
   signed session token.

Every later route works the same way:

- It accepts the session token as a bearer token.
- It fetches one portal page with the session cookie.
- It scrapes the page into JSON.

This covers the full profile and photo, the list of exams, one exam's scores,
the absence record, and rewards and punishments. Nothing is stored on the
server. Everything a route needs travels inside the signed token.

The model covers the request gates, the token codec, the HTTP wrapper, the
shared helpers, the error taxonomy, the records, and the eight handler
modules. Each is one Dafny module:

| Dafny file | module | Rust source |
|---|---|---|
| error.dfy | Errors | src/error.rs |
| http.dfy | Http | src/http.rs |
| utils.dfy | Utils | src/utils.rs |
| secure.dfy | Secure | src/secure.rs |
| request_handler.dfy | RequestHandler | src/request_handler.rs |
| types.dfy | Types | src/types.rs |
| get_login_info.dfy | GetLoginInfo | src/apis/v1/get_login_info.rs |
| login.dfy | LoginApi | src/apis/v1/login.rs |
| get_user_info_short.dfy | GetUserInfoShort | src/apis/v1/get_user_info_short.rs |
| get_user_profile.dfy | GetUserProfile | src/apis/v1/get_user_profile.rs |
| get_score.dfy | GetScore | src/apis/v1/get_score.rs |
| get_available_score.dfy | GetAvailableScore | src/apis/v1/get_available_score.rs |
| get_lack.dfy | GetLack | src/apis/v1/get_lack.rs |
| get_reward_and_punish.dfy | GetRewardAndPunish | src/apis/v1/get_reward_and_punish.rs |

Three support modules hold the language and library pieces the handlers rely
on:

- `Wrappers` holds `Option` and `Result`.
- `Strings` holds the `str` methods the handlers call: `replace`,
  `split(..).nth(..)`, `split_terminator`, `split_whitespace`,
  `parse::<u32>`, `as u8`/`as u16` casts, byte slicing, and UTF-8 widths.
- `Page` is a parsed HTML element as the scraper crate presents it: the
  elements a selector picks, attributes, text nodes, rendered text, and
  inner and outer HTML.

Modelling choices:

- **Outcomes.** A handler ends in `Outcome.Done`, `Outcome.Fail` (an error
  reply) or `Outcome.Panic`. `Outcome.Panic` stands for an `unwrap` of
  nothing or an index past the end, which the web framework turns into a 500
  reply.
- **Page shapes.** Each route checks up front whether the page has the shape
  its scraping needs (`PageReadable` and similar predicates). If it does
  not, the route returns `Panic`. Otherwise the scraping loops run under
  that precondition. A panic has no effect beyond the 500 reply, so
  panicking before the partial work rather than in the middle of it cannot
  be observed.
- **Loops.** Every scraping loop in the source is a Dafny `method` with a
  loop. Each is proved equal to a recursive or comprehension specification
  function, and the properties the route promises are lemmas about that
  function.
- **Parameters for outside code.** Function-typed parameters stand for:
  - the network (`Transport`);
  - the clock (`now`);
  - the JWT library (`Encoder`/`Decoder`);
  - SHA-512;
  - base64;
  - the url crate (`parseUrl`, `queryParam`, `QueryParser`, `ParamFinder`);
  - the checked page fetch `http_get_html_err_handle`/`http_get_err_handle`
    (`CheckedGet`), whose code is not part of this model.
- **Where the handlers and `src/types.rs` disagree, the model follows the
  handlers:**
  - the absence totals are lists of `LackStatusValue`;
  - an absence record's slots are `Option<String>`;
  - a reward record's year is cut to 16 bits, as `get_detail` does, not 8;
  - the handlers' `sign` is `sign_jwt` of `src/secure.rs`.

Behaviours of the code as written that the model keeps:

- A score row with exactly two cells passes the `list.get(1)` test, then
  panics on `list[2]`.
- A summary cell of class "score" in first position panics on
  `extra_info[i - 1]`.
- The full-profile route reports its errors under the path "/v1/login".
- The phase-1 probe rebuilds the base URL from scheme and host only, so a
  port in the given URL is dropped.
- An expired token and an invalid one both reach the client as 403
  MissingToken.

## Model

| member | source | states |
|---|---|---|
| Errors.Message | src/error.rs:15-28 | every kind of error has a non-empty client message |
| Errors.MessagesDistinct | src/error.rs:15-28 | no two kinds of error share a message, so the message identifies the kind |
| Http.Path | src/http.rs:29-55 | every portal page path is non-empty and starts with a slash |
| Http.Replace | src/http.rs:57-65 | `APIPaths::replace` applies the substitutions one after another, in list order, to the page path |
| Http.SubstituteNothing | src/http.rs:57-65 | with no substitutions the path comes back unchanged |
| Http.SubstituteFirst | src/http.rs:60-62 | the first substitution is applied first, and the later ones see its result |
| Http.ScorePlaceholders | src/http.rs:29-55 | the score page path carries the year, term and exam placeholders |
| Http.ImagePlaceholder | src/http.rs:29-55 | the photo page path carries the image-id placeholder |
| Http.SchedulePlaceholders | src/http.rs:29-55 | the timetable page path carries the class and teacher placeholders |
| Http.ImagePath | src/apis/v1/get_user_profile.rs:24-27 | substituting an image id into the photo path gives the image head followed by that id, whatever the id |
| Http.ThreeSlots | src/http.rs:57-65 | substituting year, term and exam, in that order, into a template with the three placeholders puts each value in its placeholder's place |
| Http.ScorePath | src/apis/v1/get_score.rs:42-55 | for a year and term free of `$`, the score path with the three values substituted is the fixed text with the values in place and nothing else changed |
| Http.HttpRequest | src/http.rs:79-105 | redirects are never followed; a request with a body carries the form content type; no other header is added to the caller's |
| Http.Filter | src/http.rs:114-124 | a request that could not be completed is RequestError; a reply that is neither 2xx nor 3xx is StatusCodeError with its status; otherwise the reply itself |
| Http.HttpGet | src/http.rs:114-135 | a GET that could not be completed is RequestError; a reply that is neither 2xx nor 3xx is StatusCodeError with its status; a 2xx or 3xx reply is returned as it came |
| Http.HttpPost | src/http.rs:137-150 | the same filtering for a POST with a form body: RequestError, StatusCodeError with the status, or the 2xx/3xx reply itself |
| Http.RedirectIsReturned | src/http.rs:83-86 | a 3xx reply is not followed and reaches the caller as a success carrying the 3xx reply |
| Utils.GetAspCookie | src/utils.rs:32-34 | the cookie is the text before the first "; ", or the whole header when it has none |
| Utils.GetTimeAfter | src/utils.rs:36-38 | the result lies exactly `minute` minutes, in milliseconds, after now |
| Utils.ErrorMessage | src/utils.rs:40-55 | the reply has the given status, message and timestamp; a location is reported, with the route's path, exactly when one is given |
| Utils.CombinePath | src/utils.rs:57-59 | the URL is the host followed by the path, with no slash normalisation |
| Utils.DoubledSlash | src/utils.rs:61-63 | a host ending in a slash gives a doubled slash before every page path |
| Utils.CreateAuthHeader | src/utils.rs:65-70 | the only header is Cookie, carrying the given cookie |
| Utils.SessionRequest | src/utils.rs:65-70 | a session page request goes to the page under the session's host, with the cookie as its only header, no body and no redirect |
| Utils.GenerateHttpError | src/utils.rs:72-77 | an unreachable portal is 503 "Remote server"; an error status is 502 "Return status code" |
| Utils.GenerateSessionExpireError | src/utils.rs:79-81 | an expired session is 403 with the session-expired message and no location |
| Utils.IsDocumentLogined | src/utils.rs:87-95 | a page is logged out exactly when its first "body > div" has a text node equal to the not-logged-in marker |
| Utils.MarkerIsWholeTextNode | src/utils.rs:87-95 | a longer text node that merely contains the marker does not count as logged out |
| Utils.ConvertStringToU32 | src/utils.rs:97-102 | the parsed `u32`, or 0 for text that does not parse |
| Utils.ConvertRoundTrip | src/utils.rs:97-102 | every `u32` printed in decimal is read back as itself; empty text and a lone sign give 0 |
| Utils.HexString | src/utils.rs:23-30 | the encoding has two lowercase hex digits per byte |
| Utils.HexStringPrefix | src/utils.rs:23-30 | the encoding of a prefix is the prefix of the encoding |
| Utils.HexRoundTrip | src/utils.rs:23-30 | the corrected encoding decodes back to the bytes it came from |
| Utils.VecU8ToHexString | src/utils.rs:23-30 | the encoding as written is lowercase hex, two digits per byte, of the ASCII-lowercased bytes, and decodes back to those lowercased bytes |
| Utils.SameHexIffSameLowercase | src/utils.rs:23-30 | as written, two byte strings get the same encoding exactly when they agree after ASCII lowercasing |
| Utils.HexCollision | src/utils.rs:23-30 | as written, the distinct inputs [0x41] and [0x61] are both encoded as "61" |
| Secure.KeyPathsDistinct | src/secure.rs:36-37 | the private and public key files never share a path |
| Secure.FileSystem.constructor | src/secure.rs:39 | the file system starts with the given files |
| Secure.FileSystem.Write | src/secure.rs:45-46 | writing a file replaces that path's content and nothing else |
| Secure.NewKeyPair | src/secure.rs:33-61 | when either key file is missing, one generated pair is written to both files and used; otherwise both keys are read and nothing is written; a key that is not PEM is an error |
| Secure.Classify | src/secure.rs:74-79 | only an expired signature is reported as Expired; every other decoding failure is Invalid |
| Secure.DecodeJwt | src/secure.rs:70-82 | the claims are returned exactly when the library verifies the token and the claims have the expected shape; expiry is reported exactly when the library reports an expired signature |
| Secure.PhaseOneTokenRoundTrip | src/secure.rs:63-82 | for a JWT library whose decode inverts its encode, a phase-1 token that `sign_jwt` produced decodes to the claims that were signed, and is refused where a session token is expected |
| Secure.SessionTokenRoundTrip | src/secure.rs:63-82 | for a JWT library whose decode inverts its encode, a session token that `sign_jwt` produced decodes to its claims, and is refused where a phase-1 token is expected |
| Secure.Utf8Append | src/secure.rs:113-114 | the bytes of a concatenation are the concatenation of the bytes |
| Secure.CacheKeyInputAmbiguous | src/secure.rs:113-114 | with no separator between the three strings, two splits of the same text give the same hash input and so the same key |
| Secure.CreateCacheKey | src/secure.rs:113-122 | as written, the key exists exactly when the digest has at least 113 bytes; the key has the field lengths 32, 64 and 32, and the key and the vector overlap in 17 bytes |
| Secure.CacheKeyAlwaysPanics | src/secure.rs:113-122 | as written, a 64-byte SHA-512 digest is too short, so creating a cache key always panics |
| Secure.CreateCacheKeyHex | src/secure.rs:113-122 | corrected: cut from the 128 hex digits of the digest, a key exists for every input, with the same lengths and overlap, and its id is the hex of the first 16 digest bytes |
| RequestHandler.BearerToken | src/request_handler.rs:28-31 | a token is found exactly when the header splits on whitespace into two parts, the first being exactly "Bearer"; the token is the second part |
| RequestHandler.FromRequest | src/request_handler.rs:26-40 | the claims are returned exactly when a bearer token is present and decodes; every other case is 403 MissingToken |
| RequestHandler.BearerWord | src/request_handler.rs:28-31 | "Bearer", one whitespace character and a word yield that word |
| RequestHandler.LowerCaseSchemeRefused | src/request_handler.rs:30 | the scheme is compared exactly, so "bearer" in lower case is refused |
| RequestHandler.ExpiryNotDistinguished | src/request_handler.rs:33-36 | an expired token and an invalid one get the same 403 MissingToken |
| RequestHandler.FieldNames | src/request_handler.rs:69-72 | the names of the rejected form fields, in order, exist exactly when every field error has a name |
| RequestHandler.FromData | src/request_handler.rs:61-90 | a form body is accepted as a form and a JSON body as JSON; a failing form lists its fields' names (a nameless one panics); failing JSON gives its error text; any other content type, or none, is InvalidMediaType; every failure is 400 |
| RequestHandler.DecodeIncoming | src/request_handler.rs:93-98 | the value is the one inside the wrapper, whichever parser produced it |
| Types.GetU128 | src/types.rs:35-56 | a timestamp field is returned exactly when the key holds a number below 2^128, and it is that number |
| Types.EncodeLoginInfo | src/types.rs:35-45 | the phase-1 claims are exactly the six fields of the struct |
| Types.EncodeAuthToken | src/types.rs:47-56 | the session claims are exactly the five fields of the struct |
| Types.ProfileRoundTrip | src/types.rs:116-124 | a short profile survives serialisation |
| Types.LoginInfoRoundTrip | src/types.rs:35-45 | phase-1 claims in range survive serialisation |
| Types.AuthTokenRoundTrip | src/types.rs:47-56 | session claims in range survive serialisation |
| Types.ClaimShapesExclusive | src/types.rs:35-56 | neither claim shape supplies all required fields of the other, so neither token decodes as the other kind |
| GetLoginInfo.ErrorAt | src/apis/v1/get_login_info.rs:23-25 | every error of this route reports its path and a location |
| GetLoginInfo.BaseUrl | src/apis/v1/get_login_info.rs:34-38 | the base URL starts with the scheme and ends with the portal's "/online/" root |
| GetLoginInfo.ProbeError | src/apis/v1/get_login_info.rs:42-51 | a 404 from the probe, and only a 404, is 400 "not a valid host" at "Argument: host"; an unreachable portal, and only that, is 503 with the remote-service message at "Remote server"; any other rejected status is 502 with the server-error message at "Return status code"; every reply names this route and carries the timestamp |
| GetLoginInfo.Api | src/apis/v1/get_login_info.rs:28-89 | a missing host is 400; a URL that does not parse is 500 "Parsing host url" and one without a host panics; a failed probe is reported through ProbeError; a reply without Set-Cookie is 503 "Remote server"; a page that is not the portal is 400 and a keywords tag without content panics; on the portal page a missing anti-forgery input, a missing value on it, or claims that do not sign panic; every error names this route; a token is handed out exactly when the page is reachable, sets a cookie, is the expected portal, carries the anti-forgery value and the claims sign, and it is the signed phase-1 claims |
| GetLoginInfo.NotFoundIsNotAHost | src/apis/v1/get_login_info.rs:46-47 | a 404 from the probe is refused as not a portal |
| GetLoginInfo.ForeignSiteRefused | src/apis/v1/get_login_info.rs:58-68 | a reachable page whose keywords are not the portal's is refused as not a portal, whatever else it carries |
| GetLoginInfo.IssuedTokenDecodes | src/apis/v1/get_login_info.rs:76-89 | the token handed out decodes to phase-1 claims for the probed portal that expire exactly the configured minutes after issue, and is not a session token |
| LoginApi.BodyError | src/apis/v1/login.rs:45-53 | a body that did not parse is 400, listing the missing fields or naming the Content-Type header |
| LoginApi.LoginFailed | src/apis/v1/login.rs:92 | refused credentials are 403 with no location |
| LoginApi.Api | src/apis/v1/login.rs:43-92 | body errors, post failures, a non-redirect reply and an unreadable profile each give their error; after a redirect, a short user page or session claims that do not sign panic; a session token is handed out exactly when the post is answered by a redirect, the profile is readable and the session claims sign, and it is the signed session claims |
| LoginApi.CredentialsPost | src/apis/v1/login.rs:55-68 | the credentials go to the login page under the phase-1 host, as a form of the six fields in order: the anti-forgery key, division "senior", username, password, an empty Uid and the captcha, with the phase-1 cookie and no redirect |
| LoginApi.SessionTokenDecodes | src/apis/v1/login.rs:73-88 | the session token decodes to claims for the same portal and cookie, carrying the profile read at login and the configured lifetime, and is not a phase-1 token |
| LoginApi.ProfileSurvivesLogin | src/apis/v1/get_user_info_short.rs:100-105 | the short-profile route answers, for the token handed out at login, exactly the profile read at login, with no spaces or newlines |
| GetUserInfoShort.AfterSeparator | src/apis/v1/get_user_info_short.rs:40-42 | with no separator the class name is empty, and it only holds characters of the page text |
| GetUserInfoShort.ClassName | src/apis/v1/get_user_info_short.rs:33-46 | the class name holds no space or newline, is empty without a separator, and only holds characters of the page text |
| GetUserInfoShort.ClassNameOf | src/apis/v1/get_user_info_short.rs:33-46 | on a page reading as a caption, the separator, a class name and a newline, that class name is what is extracted |
| GetUserInfoShort.CleanCell | src/apis/v1/get_user_info_short.rs:60-69 | a user-page cell holds no space or newline |
| GetUserInfoShort.FetchClass | src/apis/v1/get_user_info_short.rs:26-51 | the class name is returned exactly when the page is fetched and has a class cell; otherwise FetchFailed |
| GetUserInfoShort.FetchUser | src/apis/v1/get_user_info_short.rs:53-79 | a failed fetch is FetchFailed; a page with fewer than four cells panics; otherwise the first four cells, cleaned, in page order |
| GetUserInfoShort.GetInfoFromWeb | src/apis/v1/get_user_info_short.rs:81-98 | both pages are fetched; a short user page panics; otherwise the profile exists exactly when both fetches succeed, and any other failure is AuthError |
| GetUserInfoShort.Api | src/apis/v1/get_user_info_short.rs:100-105 | the route answers the profile stored in the session token, fetching nothing |
| GetUserProfile.CleanName | src/apis/v1/get_user_profile.rs:75-81 | a label holds no space, ideographic space or newline |
| GetUserProfile.CleanValue | src/apis/v1/get_user_profile.rs:82-88 | a value holds no space or newline |
| GetUserProfile.Fields | src/apis/v1/get_user_profile.rs:66-70 | a row of more than four cells loses its first cell; other rows keep all their cells |
| GetUserProfile.RowEntries | src/apis/v1/get_user_profile.rs:72-93 | a row gives half its read cells, rounded down |
| GetUserProfile.RowPairs | src/apis/v1/get_user_profile.rs:65-93 | the running-index loop over a row's cells emits exactly its label/value pairs, an odd last cell ignored |
| GetUserProfile.GetDatas | src/apis/v1/get_user_profile.rs:59-97 | the entries are exactly the label/value pairs of every row, row after row |
| GetUserProfile.EntriesClean | src/apis/v1/get_user_profile.rs:74-89 | every label read is free of both kinds of space and of newlines, and every value of spaces and newlines |
| GetUserProfile.EntriesCount | src/apis/v1/get_user_profile.rs:64-94 | the number of entries is the sum over the rows of half their read cells |
| GetUserProfile.RowShapes | src/apis/v1/get_user_profile.rs:66-93 | a five-cell row drops its first cell and gives two entries; a four-cell row gives two; a three-cell row gives one and ignores its last cell |
| GetUserProfile.GetImage | src/apis/v1/get_user_profile.rs:23-57 | the photo exists exactly when the image, its source, its id and the fetch are all present; it is the PNG data-URL head followed by the base64 of the fetched bytes |
| GetUserProfile.Api | src/apis/v1/get_user_profile.rs:100-125 | a failed fetch is an upstream error; a non-2xx logged-out page is an expired session; otherwise the table entries and the photo, and a photo that cannot be read panics |
| GetScore.SubjectName | src/apis/v1/get_score.rs:81 | a subject name holds no space |
| GetScore.ScoreEntry | src/apis/v1/get_score.rs:85-98 | a score fits a byte |
| GetScore.RowUnpass | src/apis/v1/get_score.rs:100-113 | a row gives at most two failure marks, each naming the row's subject |
| GetScore.ScoreLists | src/apis/v1/get_score.rs:63-115 | the row loop yields exactly the score entries and failure marks of the rows with at least two cells, in row order |
| GetScore.ScoresCount | src/apis/v1/get_score.rs:72-115 | one score entry per row that is read, and every score fits a byte |
| GetScore.UnpassBound | src/apis/v1/get_score.rs:94-113 | there are at most two failure marks per score entry |
| GetScore.UnpassNamesScored | src/apis/v1/get_score.rs:94-113 | every failure mark names a subject that has a score entry |
| GetScore.ExtraEntry | src/apis/v1/get_score.rs:122-125 | a summary value holds no space or newline |
| GetScore.ExtraList | src/apis/v1/get_score.rs:117-127 | the indexed loop yields exactly the summary entries of the score cells, in order |
| GetScore.ExtrasCount | src/apis/v1/get_score.rs:117-127 | one summary entry per score cell, and no caption keeps its full-width colon |
| GetScore.Api | src/apis/v1/get_score.rs:33-136 | missing parameters are 400; the page is fetched at the filled-in score path; a not-yet-open page is 404; otherwise the score entries, summary entries and failure marks of the page after its header row |
| GetScore.ScoreUrl | src/apis/v1/get_score.rs:42-55 | for a year and term without `$`, the page asked for is the host, then the score path's fixed text with year, term and exam id in place |
| GetAvailableScore.Kind | src/apis/v1/get_available_score.rs:53 | the kind is 2 exactly when the option text contains "平時成績", else 1 |
| GetAvailableScore.OptionValue | src/apis/v1/get_available_score.rs:44-53 | year, term and sitting each fit a byte; the name is the option's inner HTML; the kind is 1 or 2 |
| GetAvailableScore.OptionList | src/apis/v1/get_available_score.rs:37-55 | the loop yields one entry per option, in order |
| GetAvailableScore.Api | src/apis/v1/get_available_score.rs:20-60 | a non-2xx page is an expired session; the first two options are dropped and every other one gives its entry, in order; an unreadable page panics |
| GetAvailableScore.TimesIsFourthDigit | src/apis/v1/get_available_score.rs:52 | for an ASCII exam id whose fourth character is a digit, the sitting is that digit |
| GetAvailableScore.SmallYearKept | src/apis/v1/get_available_score.rs:49 | a year below 256 written in decimal is read as itself |
| GetLack.CellTexts | src/apis/v1/get_lack.rs:41-44 | a row gives one text per cell |
| GetLack.SummaryTexts | src/apis/v1/get_lack.rs:29-45 | one list of texts per summary row that is read |
| GetLack.KeptSummaryExact | src/apis/v1/get_lack.rs:34-40 | a summary row is read exactly when it is a row of the table and its first cell does not span columns |
| GetLack.TermStatus | src/apis/v1/get_lack.rs:49-59 | each term has eighteen totals |
| GetLack.TermLists | src/apis/v1/get_lack.rs:46-59 | the column loop yields the upper term's totals from the first two summary rows read and the lower term's from the next two |
| GetLack.TermStatusValues | src/apis/v1/get_lack.rs:50-58 | each total carries its caption; its count fits 16 bits, is read as itself when written in decimal below 65536, and is 0 when unreadable |
| GetLack.Record | src/apis/v1/get_lack.rs:66-87 | the week and the date are the first two cells (empty when missing); the third is skipped; every later cell gives one slot, empty exactly when its text is empty |
| GetLack.RecordOf | src/apis/v1/get_lack.rs:66-87 | the counting loop over a row's cells yields that record |
| GetLack.RecordList | src/apis/v1/get_lack.rs:61-88 | one record per absence row, in order |
| GetLack.Api | src/apis/v1/get_lack.rs:23-99 | an unreadable page panics; otherwise the two terms' totals and one record per absence row |
| GetRewardAndPunish.Pairs | src/apis/v1/get_reward_and_punish.rs:39-44 | a row gives half its texts, rounded down, as kind/count pairs |
| GetRewardAndPunish.PairsStep | src/apis/v1/get_reward_and_punish.rs:39-44 | each odd index adds the next kind/count pair of the row |
| GetRewardAndPunish.SummaryRows | src/apis/v1/get_reward_and_punish.rs:26-33 | the rows read are those of the second-to-last table body after its header, each with a cell to drop |
| GetRewardAndPunish.RowStatuses | src/apis/v1/get_reward_and_punish.rs:39-44 | the step-by-two loop over a row's texts yields exactly its kind/count pairs, an odd last text ignored |
| GetRewardAndPunish.GetSummarize | src/apis/v1/get_reward_and_punish.rs:22-48 | the entries are exactly the kind/count pairs of every summary row after its first cell, row after row |
| GetRewardAndPunish.StatusesCount | src/apis/v1/get_reward_and_punish.rs:35-45 | a row of n cells gives (n - 1) / 2 entries, and every count fits 16 bits |
| GetRewardAndPunish.FiveCellRow | src/apis/v1/get_reward_and_punish.rs:36-44 | a row of a caption and two kind/count pairs gives those two pairs |
| GetRewardAndPunish.Detail | src/apis/v1/get_reward_and_punish.rs:60-68 | kind, start, signing, reason and execution come from the first five columns; the written-off date is absent exactly when it is a lone no-break space; the year fits 16 bits and is the parsed number when small |
| GetRewardAndPunish.GetDetail | src/apis/v1/get_reward_and_punish.rs:50-72 | one entry per record row, in order |
| GetRewardAndPunish.Api | src/apis/v1/get_reward_and_punish.rs:75-94 | a non-2xx page is an expired session; an unreadable page panics; otherwise the summary pairs and the record entries of the same page |

## Left out

- Cryptography is not modelled. RSA key generation, PEM parsing, JWT signing
  and verification, and SHA-512 are parameters. `Inverts` is the one
  assumption about them: decode gives back what encode signed.
- The JWT library's validation of `exp` is not modelled. Its time unit and
  its leeway belong to the library, so `DecodeJwt` only forwards the
  library's verdict.
- Real I/O is not modelled: the network, files and the clock. Each is a
  parameter (`Transport`, `FileSystem`, `now`). One clock reading is used for
  both `iat` and the expiry.
- Reading a key file that is not UTF-8, and failures of `Rsa::generate` or
  `File::create`, are not modelled in `Secure.NewKeyPair`. The generated pair
  and the files are given.
- The configuration is not modelled. It is loaded through `lazy_static`, and
  the token lifetime in minutes is a parameter.
- Concurrency is not modelled. `tokio::join!` runs its two futures one after
  the other here. The two never share state, so the order cannot be seen.
- HTML parsing and selector matching are not modelled. `Page.Select` is the
  parser's answer for a selector; it is given, not computed.
- Body decoding is not modelled. `text().await.unwrap()` and
  `bytes().await.unwrap()` are taken to succeed, and the parsed document and
  raw bytes are part of the reply.
- `html_to_text` and `find_string_in_url` are not part of this model. Each
  appears only through its result: `Element.rendered` and `ParamFinder`.
- The `http_get_html_err_handle` and `http_get_err_handle` helpers are not
  part of this model. Their result is the `CheckedGet` parameter.
- URL parsing (the url crate) is not modelled. It is a parameter (`parseUrl`,
  `queryParam`, `QueryParser`), and a `Url` keeps only its scheme and host.
- Base64 encoding is not modelled; it is a parameter.
- Floating point is not modelled. `convert_string_to_f32` and the `gpa` field
  of a score entry are left out.
- GetScore.ScoreEntry: the entry has no `gpa` field, because the source reads
  it as a float.
- GetLoginInfo.Api: a Set-Cookie value that `to_str` rejects (bytes outside
  visible ASCII) would panic. Header values are strings here, so that panic
  is not modelled.
- Utils.CreateAuthHeader: a cookie that `HeaderValue::from_str` rejects would
  panic. Header values are strings here, so that panic is not modelled.
- Only the first Set-Cookie header is read, as `HeaderMap::get` does. The map
  here holds one value per header name.
- `serde_urlencoded::to_string(...).unwrap()` in `http_request` cannot fail
  on the flat form of string fields the broker posts, so it is not modelled.
- Logging (`println!`) and the captcha relay route are not part of the
  modelled core.
- `fetch_user` reads the user cells through a mutable iterator. Here it is a
  function on the first four selected cells, which yields the same values.

## Findings

| source | as written | input that shows it | evidently intended | confidence | as-written member | corrected member |
|---|---|---|---|---|---|---|
| src/utils.rs:23-30 | the bytes are ASCII-lowercased before being formatted as hex, so distinct byte strings can share an encoding | the buffers [0x41] and [0x61] both encode as "61" | hex of the bytes as they are, two digits per byte, decodable back to the bytes | not executed | Utils.HexCollision | Utils.HexRoundTrip |
| src/secure.rs:113-122 | the raw 64-byte SHA-512 digest is sliced at [34..98] and [81..113], past its end | any school number, username and class name, e.g. three empty strings | the slices taken from the 128-character hex form of the digest | not executed | Secure.CacheKeyAlwaysPanics | Secure.CreateCacheKeyHex |
