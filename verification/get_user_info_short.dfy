/**
 * The short profile: the class name read from one portal page and the
 * class number, school number, name and gender read from another, fetched
 * side by side with the phase-1 session cookie.
 */
module GetUserInfoShort {
  import opened Wrappers
  import opened Strings
  import opened Errors
  import opened Types
  import opened Http
  import opened Page
  import opened Utils

  const USER_DATA: string := "#authirty1 > td"
  const CLASS_DATA: string := "td"

  /**
   * The separator in front of the class name, exactly as the broker spells
   * it: the full-width colon's UTF-8 bytes read back as Windows-1252
   * characters.
   */
  const CLASS_SEPARATOR: string := "\U{EF}\U{BC}\U{161}"

  const API_MESSAGE: string := "Get user profile short successful"

  /** The fields of the user page, in the order the page lists them. */
  datatype UserInfo = UserInfo(class_number: string, school_number: string, user_name: string, gender: string)

  /** The class page's text with spaces and triple newlines removed. */
  function ClassText(text: string): string
  {
    Remove(Remove(text, " "), "\n\n\n")
  }

  /** The text after the first separator, up to the next one; empty when there is no separator. */
  function AfterSeparator(cleaned: string): (after: string)
    ensures !Contains(cleaned, CLASS_SEPARATOR) ==> after == ""
    ensures forall x | x in after :: x in cleaned
  {
    match SplitNth(cleaned, CLASS_SEPARATOR, 1)
    case Some(s) => SplitNthChars(cleaned, CLASS_SEPARATOR, 1); s
    case None => ""
  }

  /**
   * The class name in the class page's text: the part after the first
   * separator, up to the next newline; empty when there is no separator.
   */
  function ClassName(text: string): (name: string)
    ensures ' ' !in name && '\n' !in name
    ensures !Contains(ClassText(text), CLASS_SEPARATOR) ==> name == ""
    ensures forall x | x in name :: x in text
  {
    RemoveChar(text, ' ');
    RemoveAddsNothing(Remove(text, " "), "\n\n\n");
    var after := AfterSeparator(ClassText(text));
    match SplitTerminatorFirst(after, "\n")
    case Some(s) =>
      SplitNthChars(after, "\n", 0);
      FirstPieceLacks(after, '\n');
      s
    case None => ""
  }

  /**
   * On a class page reading as a caption, the separator, the class name and
   * a newline, the class name is what is extracted.
   */
  lemma ClassNameOf(caption: string, name: string)
    requires ' ' !in caption && '\n' !in caption && '\U{EF}' !in caption
    requires ' ' !in name && '\n' !in name && '\U{EF}' !in name
    ensures ClassName(caption + CLASS_SEPARATOR + name + "\n") == name
  {
    var body := caption + CLASS_SEPARATOR + name;
    var text := body + "\n";
    assert CLASS_SEPARATOR[0] == '\U{EF}' && ' ' !in CLASS_SEPARATOR && '\n' !in CLASS_SEPARATOR;
    assert ' ' !in text && '\n' !in body;
    AbsentChar(text, " ", ' ');
    ReplaceAbsent(text, " ", "");
    assert !Contains(text, "\n\n\n") by {
      forall i | 0 <= i <= |text| - 3 ensures !OccursAt(text, "\n\n\n", i) {
        assert text[i] == body[i] && body[i] in body;
        assert text[i..i + 3][0] == text[i];
      }
    }
    ReplaceAbsent(text, "\n\n\n", "");
    assert text == caption + CLASS_SEPARATOR + (name + "\n");
    SplitAfter(caption, CLASS_SEPARATOR, name + "\n");
    SplitWhole(name + "\n", CLASS_SEPARATOR);
    assert name + "\n" == name + "\n" + "";
    SplitAfter(name, "\n", "");
  }

  /** A cell of the user page: its text without spaces or newlines. */
  function CleanCell(cell: Element): (s: string)
    ensures ' ' !in s && '\n' !in s
  {
    RemoveChar(Text(cell), ' ');
    RemoveChar(Remove(Text(cell), " "), '\n');
    Remove(Remove(Text(cell), " "), "\n")
  }

  /** `fetch_class`: the class name, or FetchFailed when the page cannot be fetched or has no cell. */
  function FetchClass(host: string, cookie: string, send: Transport): (r: Result<string, FetchError>)
    ensures r.Ok? <==> SessionGet(host, cookie, ClassData, send).Ok? && First(SessionGet(host, cookie, ClassData, send).value.document, CLASS_DATA).Some?
    ensures r.Ok? ==> r.value == ClassName(Text(First(SessionGet(host, cookie, ClassData, send).value.document, CLASS_DATA).value))
    ensures r.Err? ==> r.error == FetchFailed
  {
    match SessionGet(host, cookie, ClassData, send)
    case Err(_) => Err(FetchFailed)
    case Ok(resp) =>
      match First(resp.document, CLASS_DATA)
      case Some(cell) => Ok(ClassName(Text(cell)))
      case None => Err(FetchFailed)
  }

  /**
   * `fetch_user`: the first four cells of the user page, cleaned; a page
   * with fewer than four cells panics.
   */
  function FetchUser(host: string, cookie: string, send: Transport): (r: Outcome<UserInfo, FetchError>)
    ensures r.Fail? <==> SessionGet(host, cookie, ProfileShort, send).Err?
    ensures r.Fail? ==> r.error == FetchFailed
    ensures r.Panic? <==> SessionGet(host, cookie, ProfileShort, send).Ok? && |Select(SessionGet(host, cookie, ProfileShort, send).value.document, USER_DATA)| < 4
    ensures r.Done? ==>
      var cells := Select(SessionGet(host, cookie, ProfileShort, send).value.document, USER_DATA);
      && |cells| >= 4
      && r.value == UserInfo(CleanCell(cells[0]), CleanCell(cells[1]), CleanCell(cells[2]), CleanCell(cells[3]))
  {
    match SessionGet(host, cookie, ProfileShort, send)
    case Err(_) => Fail(FetchFailed)
    case Ok(resp) =>
      var cells := Select(resp.document, USER_DATA);
      if |cells| < 4 then Panic
      else Done(UserInfo(CleanCell(cells[0]), CleanCell(cells[1]), CleanCell(cells[2]), CleanCell(cells[3])))
  }

  /** No field of a profile holds a space or a newline. */
  predicate CleanProfile(p: UserProfileShortValue)
  {
    && ' ' !in p.className && '\n' !in p.className
    && ' ' !in p.classNumber && '\n' !in p.classNumber
    && ' ' !in p.gender && '\n' !in p.gender
    && ' ' !in p.schoolNumber && '\n' !in p.schoolNumber
    && ' ' !in p.userName && '\n' !in p.userName
  }

  /**
   * `get_info_from_web` (and `get_user_info_short`, which only forwards it):
   * both pages are fetched; a short user page panics whatever became of
   * the class page, and any other failure is reported as AuthError.
   */
  function GetInfoFromWeb(token: LoginInfoAuthToken, send: Transport): (r: Outcome<UserProfileShortValue, FetchError>)
    ensures r.Panic? <==> FetchUser(token.host, token.cookie, send).Panic?
    ensures r.Fail? ==> r.error == AuthError
    ensures r.Done? <==> FetchClass(token.host, token.cookie, send).Ok? && FetchUser(token.host, token.cookie, send).Done?
    ensures r.Done? ==>
      var user := FetchUser(token.host, token.cookie, send).value;
      && r.value.className == FetchClass(token.host, token.cookie, send).value
      && r.value.classNumber == user.class_number
      && r.value.schoolNumber == user.school_number
      && r.value.userName == user.user_name
      && r.value.gender == user.gender
      && CleanProfile(r.value)
  {
    var classData := FetchClass(token.host, token.cookie, send);
    var user := FetchUser(token.host, token.cookie, send);
    if user.Panic? then Panic
    else if classData.Ok? && user.Done? then
      Done(UserProfileShortValue(
        className := classData.value,
        classNumber := user.value.class_number,
        gender := user.value.gender,
        schoolNumber := user.value.school_number,
        userName := user.value.user_name))
    else Fail(AuthError)
  }

  /** The route: the profile stored in the session token, fetched nothing. */
  function Api(auth: AuthToken): (r: Reply<Envelope<UserProfileShortValue>>)
    ensures r.Done? && r.value.data == auth.user_data && r.value.message == API_MESSAGE
  {
    Done(Envelope(API_MESSAGE, auth.user_data))
  }
}
