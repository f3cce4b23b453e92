/**
 * The request gates in front of every handler: the bearer-token
 * extractor and the body extractor that accepts a form or JSON.
 */
module RequestHandler {
  import opened Wrappers
  import opened Strings
  import opened Types
  import opened Utils
  import opened Secure

  datatype AuthTokenError = MissingToken

  /**
   * The token of an Authorization header: present only when the header
   * splits on whitespace into exactly two parts, the first being exactly
   * "Bearer".
   */
  function BearerToken(header: Option<string>): (token: Option<string>)
    ensures token.Some? <==>
      header.Some? && |SplitWhitespace(header.value)| == 2 && SplitWhitespace(header.value)[0] == "Bearer"
    ensures token.Some? ==> token.value == SplitWhitespace(header.value)[1]
  {
    match header
    case None => None
    case Some(h) =>
      var parts := SplitWhitespace(h);
      if |parts| == 2 && parts[0] == "Bearer" then Some(parts[1]) else None
  }

  /**
   * `from_request`: the decoded claims when the header carries a bearer
   * token that decodes; every other case, whether the header is missing,
   * malformed, or its token expired or invalid, is 403 MissingToken.
   */
  function FromRequest<T>(header: Option<string>, decode: string -> Result<T, JWTError>): (r: Result<T, (nat, AuthTokenError)>)
    ensures r.Ok? <==> BearerToken(header).Some? && decode(BearerToken(header).value).Ok?
    ensures r.Ok? ==> r.value == decode(BearerToken(header).value).value
    ensures r.Err? ==> r.error == (FORBIDDEN, MissingToken)
  {
    match BearerToken(header)
    case Some(token) =>
      (match decode(token)
       case Ok(claims) => Ok(claims)
       case Err(_) => Err((FORBIDDEN, MissingToken)))
    case None => Err((FORBIDDEN, MissingToken))
  }

  /** "Bearer" followed by one word yields that word, whatever whitespace separates them. */
  lemma BearerWord(space: char, w: string)
    requires IsWhitespace(space) && IsWord(w)
    ensures BearerToken(Some("Bearer" + [space] + w)) == Some(w)
  {
    assert IsWord("Bearer");
    SplitWhitespaceWord("Bearer", [space] + w);
    assert "Bearer" + [space] + w == "Bearer" + ([space] + w);
    SplitWhitespaceSkip(space, w);
    SplitWhitespaceWord(w, "");
    assert w + "" == w;
  }

  /** The scheme is compared exactly: "bearer" in lower case is refused. */
  lemma LowerCaseSchemeRefused(w: string)
    requires IsWord(w)
    ensures BearerToken(Some("bearer " + w)) == None
  {
    assert IsWord("bearer");
    SplitWhitespaceWord("bearer", " " + w);
    assert "bearer " + w == "bearer" + (" " + w);
    assert "bearer" != "Bearer";
  }

  /** The gate cannot tell an expired token from an invalid one. */
  lemma ExpiryNotDistinguished<T>(header: Option<string>, d1: string -> Result<T, JWTError>, d2: string -> Result<T, JWTError>)
    requires BearerToken(header).Some?
    requires d1(BearerToken(header).value) == Err(Expired)
    requires d2(BearerToken(header).value) == Err(Invalid)
    ensures FromRequest(header, d1) == FromRequest(header, d2) == Err((FORBIDDEN, MissingToken))
  {
  }

  // ---------------------------------------------------------------------
  // Bodies

  /** A request's content type. */
  datatype MediaType = MediaType(top: string, sub: string)

  /** `is_form_data`: multipart/form-data, compared without regard to ASCII case. */
  predicate IsFormData(m: MediaType)
  {
    EqIgnoreAsciiCase(m.top, "multipart") && EqIgnoreAsciiCase(m.sub, "form-data")
  }

  /** `is_json`: application/json, compared without regard to ASCII case. */
  predicate IsJson(m: MediaType)
  {
    EqIgnoreAsciiCase(m.top, "application") && EqIgnoreAsciiCase(m.sub, "json")
  }

  /** One field the form parser rejected, by name when it has one. */
  datatype FieldError = FieldError(name: Option<string>)

  /** What the form parser makes of the body. */
  datatype FormOutcome<T> = FormParsed(form: T) | FormFailed(errors: seq<FieldError>)

  /** What the JSON parser makes of the body. */
  datatype JsonOutcome<T> = JsonParsed(json: T) | JsonFailed(message: string)

  /** The parsed body and which parser produced it. */
  datatype IncomingDataWrapper<T> = Form(value: T) | Json(value: T)

  datatype IncomingError = MissingArguments(args: seq<string>) | InvalidMediaType

  /** The names of the rejected fields, in error order; None when one has no name. */
  function FieldNames(errors: seq<FieldError>): (names: Option<seq<string>>)
    ensures names.Some? <==> forall i | 0 <= i < |errors| :: errors[i].name.Some?
    ensures names.Some? ==> |names.value| == |errors|
    ensures names.Some? ==> forall i | 0 <= i < |errors| :: names.value[i] == errors[i].name.value
    decreases |errors|
  {
    if errors == [] then Some([])
    else
      var front := errors[..|errors| - 1];
      match (FieldNames(front), errors[|errors| - 1].name)
      case (Some(ns), Some(n)) => Some(ns + [n])
      case (None, _) =>
        assert !(forall i | 0 <= i < |front| :: front[i].name.Some?);
        None
      case (_, None) => None
  }

  /**
   * `from_data`: a multipart form or a JSON body.  A form that fails lists
   * the names of the failing fields (a nameless error panics); JSON that
   * fails gives its error text; any other or no content type is
   * InvalidMediaType.  Every failure is 400.
   */
  method FromData<T>(contentType: Option<MediaType>, form: FormOutcome<T>, json: JsonOutcome<T>)
    returns (r: Outcome<IncomingDataWrapper<T>, (nat, IncomingError)>)
    ensures contentType.None? ==> r == Fail((BAD_REQUEST, InvalidMediaType))
    ensures contentType.Some? && !IsFormData(contentType.value) && !IsJson(contentType.value) ==>
      r == Fail((BAD_REQUEST, InvalidMediaType))
    ensures contentType.Some? && IsFormData(contentType.value) ==>
      match form
      case FormParsed(v) => r == Done(Form(v))
      case FormFailed(errors) =>
        if FieldNames(errors).Some? then r == Fail((BAD_REQUEST, MissingArguments(FieldNames(errors).value)))
        else r == Panic
    ensures contentType.Some? && !IsFormData(contentType.value) && IsJson(contentType.value) ==>
      match json
      case JsonParsed(v) => r == Done(Json(v))
      case JsonFailed(message) => r == Fail((BAD_REQUEST, MissingArguments([message])))
  {
    if contentType.None? {
      return Fail((BAD_REQUEST, InvalidMediaType));
    }
    var media := contentType.value;
    if IsFormData(media) {
      match form
      case FormParsed(v) =>
        return Done(Form(v));
      case FormFailed(errors) =>
        var argumentMissing: seq<string> := [];
        for i := 0 to |errors|
          invariant FieldNames(errors[..i]) == Some(argumentMissing)
        {
          assert errors[..i + 1][..i] == errors[..i];
          if errors[i].name.None? {
            assert !(forall j | 0 <= j < |errors| :: errors[j].name.Some?);
            return Panic;
          }
          argumentMissing := argumentMissing + [errors[i].name.value];
        }
        assert errors[..|errors|] == errors;
        return Fail((BAD_REQUEST, MissingArguments(argumentMissing)));
    }
    if IsJson(media) {
      match json
      case JsonParsed(v) =>
        return Done(Json(v));
      case JsonFailed(message) =>
        return Fail((BAD_REQUEST, MissingArguments([message])));
    }
    return Fail((BAD_REQUEST, InvalidMediaType));
  }

  /** `decode_incoming`: the parsed value, whichever parser produced it. */
  function DecodeIncoming<T>(incoming: IncomingDataWrapper<T>): (v: T)
    ensures incoming == Form(v) || incoming == Json(v)
  {
    match incoming
    case Form(d) => d
    case Json(d) => d
  }
}
