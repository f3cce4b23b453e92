/**
 * The portal's page paths, their placeholder substitution, and the
 * broker's view of an upstream HTTP exchange: the request it builds and
 * the status filter it applies to the reply.
 */
module Http {
  import opened Wrappers
  import opened Strings
  import opened Page

  /** The portal pages the broker knows. */
  datatype APIPaths =
    | Home
    | Login
    | LoginCaptcha
    | ScoreList
    | Score
    | Profile
    | ProfileImage
    | ProfileShort
    | ClassData
    | RewardAndPunish
    | Lack
    | AllScores
    | Schedule
    | ScheduleList

  // The templated paths, split at their placeholders. A literal longer than
  // about forty characters is too long for the verifier to index into, so
  // the long paths are written as their leading slash and the rest.
  const SCORE_HEAD: string := "/" + "selection_student/" + "student_subjects_number.asp" + "?action=%A6U%A6%A1%A6%A8%C1Z" + "&thisyear="
  const SCORE_TERM: string := "&thisterm="
  const SCORE_NUMBER: string := "&number="
  const SCORE_TAIL: string := "&exam_name=hlhs"
  const IMAGE_HEAD: string := "/utility/file1.asp?q=x&id="
  const SCHEDULE_HEAD: string := "/" + "student/school_class_tabletime.asp?teacher_classnumber="
  const SCHEDULE_TEACHER: string := "&teacher_name="

  /** The path of each page, relative to the portal's base URL. */
  function Path(p: APIPaths): (s: string)
    ensures |s| > 0 && s[0] == '/'
  {
    match p
    case Home => "/"
    case Login => "/login.asp"
    case LoginCaptcha => "/image/vcode.asp"
    case Score => SCORE_HEAD + "$year$" + SCORE_TERM + "$term$" + SCORE_NUMBER + "$testid$" + SCORE_TAIL
    case ScoreList => "/" + "selection_student/student_subjects_number.asp?action=open_window_frame"
    case AllScores => "/selection_student/grade_chart_all.asp"
    case Profile => "/selection_student/fundamental.asp"
    case ProfileImage => IMAGE_HEAD + "$imgid$"
    case ProfileShort => "/" + "student/selection_look_over_data.asp?look_over=right_below&school_class="
    case ClassData => "/" + "student/selection_look_over_data.asp?look_over=right_top&school_class=&division="
    case Schedule => SCHEDULE_HEAD + "$class$" + SCHEDULE_TEACHER + "$teacher$"
    case ScheduleList => "/" + "student/select_preceptor.asp?action=open_sel"
    case Lack => "/" + "selection_student/absentation_skip_school.asp"
    case RewardAndPunish => "/" + "selection_student/moralculture_%20bonuspenalty.asp"
  }

  /** One substitution: every occurrence of `match_string` becomes `replacement`. */
  datatype ReplaceString = ReplaceString(match_string: string, replacement: string)

  /** The substitutions applied one after another, in list order, each to the result of the previous ones. */
  function Substitute(s: string, rs: seq<ReplaceString>): string
    decreases |rs|
  {
    if rs == [] then s
    else
      var last := rs[|rs| - 1];
      ReplaceAll(Substitute(s, rs[..|rs| - 1]), last.match_string, last.replacement)
  }

  /** `APIPaths::replace`: the page path with the substitutions applied. */
  method Replace(p: APIPaths, replacement: seq<ReplaceString>) returns (origin: string)
    ensures origin == Substitute(Path(p), replacement)
  {
    origin := Path(p);
    for i := 0 to |replacement|
      invariant origin == Substitute(Path(p), replacement[..i])
    {
      assert replacement[..i + 1][..i] == replacement[..i];
      origin := ReplaceAll(origin, replacement[i].match_string, replacement[i].replacement);
    }
    assert replacement[..|replacement|] == replacement;
  }

  /** With no substitutions the path comes back unchanged. */
  lemma SubstituteNothing(s: string)
    ensures Substitute(s, []) == s
  {
  }

  /** The first substitution is applied first and the rest see its result. */
  lemma {:induction false} SubstituteFirst(s: string, r: ReplaceString, rs: seq<ReplaceString>)
    ensures Substitute(s, [r] + rs) == Substitute(ReplaceAll(s, r.match_string, r.replacement), rs)
    decreases |rs|
  {
    if rs == [] {
      assert [r] + rs == [r];
      assert [r][..0] == [];
    } else {
      var front := rs[..|rs| - 1];
      assert ([r] + rs)[..|[r] + rs| - 1] == [r] + front;
      SubstituteFirst(s, r, front);
    }
  }

  lemma PieceOccurs(a: string, pat: string, b: string)
    ensures OccursAt(a + pat + b, pat, |a|)
    ensures Contains(a + pat + b, pat)
  {
    var s := a + pat + b;
    assert s[|a|..|a| + |pat|] == pat by {
      forall k | 0 <= k < |pat| ensures s[|a| + k] == pat[k] { }
    }
    assert OccursAt(s, pat, |a|);
  }

  /** Five pieces, with the last three grouped. */
  lemma RegroupTail(a: string, b: string, c: string, d: string, e: string)
    ensures a + b + c + d + e == a + b + (c + d + e)
  {
  }

  /** Seven pieces, regrouped around the piece at each placeholder position. */
  lemma Regroup(a: string, b: string, c: string, d: string, e: string, f: string, g: string)
    ensures a + b + c + d + e + f + g == a + b + (c + d + e + f + g)
    ensures a + b + c + d + e + f + g == (a + b + c) + d + (e + f + g)
    ensures a + b + c + d + e + f + g == (a + b + c + d + e) + f + g
  {
  }

  /** The score page carries the year, term and examination placeholders. */
  lemma ScorePlaceholders()
    ensures Contains(Path(Score), "$year$") && Contains(Path(Score), "$term$") && Contains(Path(Score), "$testid$")
  {
    Regroup(SCORE_HEAD, "$year$", SCORE_TERM, "$term$", SCORE_NUMBER, "$testid$", SCORE_TAIL);
    PieceOccurs(SCORE_HEAD, "$year$", SCORE_TERM + "$term$" + SCORE_NUMBER + "$testid$" + SCORE_TAIL);
    PieceOccurs(SCORE_HEAD + "$year$" + SCORE_TERM, "$term$", SCORE_NUMBER + "$testid$" + SCORE_TAIL);
    PieceOccurs(SCORE_HEAD + "$year$" + SCORE_TERM + "$term$" + SCORE_NUMBER, "$testid$", SCORE_TAIL);
  }

  /** The photo page carries the image id placeholder. */
  lemma ImagePlaceholder()
    ensures Contains(Path(ProfileImage), "$imgid$")
  {
    PieceOccurs(IMAGE_HEAD, "$imgid$", "");
    assert IMAGE_HEAD + "$imgid$" + "" == Path(ProfileImage);
  }

  /** The timetable page carries the class and teacher placeholders. */
  lemma SchedulePlaceholders()
    ensures Contains(Path(Schedule), "$class$") && Contains(Path(Schedule), "$teacher$")
  {
    PieceOccurs(SCHEDULE_HEAD, "$class$", SCHEDULE_TEACHER + "$teacher$");
    assert SCHEDULE_HEAD + "$class$" + (SCHEDULE_TEACHER + "$teacher$") == Path(Schedule);
    PieceOccurs(SCHEDULE_HEAD + "$class$" + SCHEDULE_TEACHER, "$teacher$", "");
    assert SCHEDULE_HEAD + "$class$" + SCHEDULE_TEACHER + "$teacher$" + "" == Path(Schedule);
  }

  /** The profile photo path is the image head followed by the id, whatever the id. */
  lemma ImagePath(id: string)
    ensures Substitute(Path(ProfileImage), [ReplaceString("$imgid$", id)]) == IMAGE_HEAD + id
  {
    assert '$' !in IMAGE_HEAD;
    ReplaceSplit(IMAGE_HEAD, "", "$imgid$", id);
    assert IMAGE_HEAD + "$imgid$" + "" == Path(ProfileImage);
    assert [ReplaceString("$imgid$", id)][..0] == [];
    assert ReplaceAll("", "$imgid$", id) == "";
  }

  /** A `$` followed by text free of `$` is no term placeholder and passes through. */
  lemma DollarTail(tail: string, t: string)
    requires '$' !in tail
    ensures ReplaceAll("$" + tail, "$term$", t) == "$" + tail
  {
    var pat := "$term$";
    var last := "$" + tail;
    ReplaceSkip(tail, "", pat, t);
    assert tail + "" == tail;
    assert ReplaceAll("", pat, t) == "";
    assert !OccursAt(last, pat, 0) by {
      if |last| >= |pat| {
        assert last[..|pat|][5] == last[5] && last[5] in tail;
      }
    }
    ReplaceNoMatchHere(last, pat, t);
    assert last[1..] == tail;
  }

  /** The examination placeholder is no term placeholder and passes through. */
  lemma ExamNotTerm(last: string, t: string)
    requires ReplaceAll(last, "$term$", t) == last
    ensures ReplaceAll("$testid" + last, "$term$", t) == "$testid" + last
  {
    var pat := "$term$";
    ReplaceSkip("testid", last, pat, t);
    var mid := "$" + ("testid" + last);
    assert !OccursAt(mid, pat, 0) by {
      assert mid[3] == 's';
      assert |mid| >= |pat| ==> mid[..|pat|][3] == 's';
    }
    ReplaceNoMatchHere(mid, pat, t);
    assert mid[1..] == "testid" + last;
    assert mid == "$testid" + last;
  }

  /** What follows the term placeholder holds no term placeholder, only the examination one. */
  lemma TermAbsentAfter(number: string, tail: string, t: string)
    requires '$' !in number && '$' !in tail
    ensures ReplaceAll(number + "$testid$" + tail, "$term$", t) == number + "$testid$" + tail
  {
    DollarTail(tail, t);
    ExamNotTerm("$" + tail, t);
    ReplaceSkip(number, "$testid" + ("$" + tail), "$term$", t);
    assert number + ("$testid" + ("$" + tail)) == number + "$testid$" + tail;
  }

  /** An occurrence after a prefix free of `$`, with no `y` after it: only that occurrence changes. */
  lemma OnlyYear(head: string, rest: string, year: string)
    requires '$' !in head && 'y' !in rest
    ensures ReplaceAll(head + "$year$" + rest, "$year$", year) == head + year + rest
  {
    ReplaceSplit(head, rest, "$year$", year);
    AbsentChar(rest, "$year$", 'y');
    ReplaceAbsent(rest, "$year$", year);
  }

  lemma YearSlot(head: string, a: string, b: string, tail: string, year: string)
    requires '$' !in head && 'y' !in a && 'y' !in b && 'y' !in tail
    ensures ReplaceAll(head + "$year$" + a + "$term$" + b + "$testid$" + tail, "$year$", year)
         == head + year + a + "$term$" + b + "$testid$" + tail
  {
    var rest := a + "$term$" + b + "$testid$" + tail;
    Regroup(head, "$year$", a, "$term$", b, "$testid$", tail);
    OnlyYear(head, rest, year);
    assert head + year + rest == head + year + a + "$term$" + b + "$testid$" + tail;
  }

  lemma TermSlot(head: string, b: string, tail: string, term: string)
    requires '$' !in head && '$' !in b && '$' !in tail
    ensures ReplaceAll(head + "$term$" + b + "$testid$" + tail, "$term$", term) == head + term + b + "$testid$" + tail
  {
    var rest := b + "$testid$" + tail;
    RegroupTail(head, "$term$", b, "$testid$", tail);
    RegroupTail(head, term, b, "$testid$", tail);
    ReplaceSplit(head, rest, "$term$", term);
    TermAbsentAfter(b, tail, term);
  }

  lemma ExamSlot(head: string, tail: string, testID: string)
    requires '$' !in head && '$' !in tail
    ensures ReplaceAll(head + "$testid$" + tail, "$testid$", testID) == head + testID + tail
  {
    ReplaceSplit(head, tail, "$testid$", testID);
    ReplaceSkip(tail, "", "$testid$", testID);
    assert tail + "" == tail;
    assert ReplaceAll("", "$testid$", testID) == "";
  }

  /**
   * Substituting the year, term and examination, in that order, into a
   * template head ++ "$year$" ++ a ++ "$term$" ++ b ++ "$testid$" ++ tail
   * whose fixed text and year and term are free of `$`.
   */
  lemma ThreeSlots(head: string, a: string, b: string, tail: string, year: string, term: string, testID: string)
    requires '$' !in head && '$' !in a && '$' !in b && '$' !in tail && '$' !in year && '$' !in term
    requires 'y' !in a && 'y' !in b && 'y' !in tail
    ensures Substitute(head + "$year$" + a + "$term$" + b + "$testid$" + tail,
                       [ReplaceString("$year$", year), ReplaceString("$term$", term), ReplaceString("$testid$", testID)])
         == head + year + a + term + b + testID + tail
  {
    var rs := [ReplaceString("$year$", year), ReplaceString("$term$", term), ReplaceString("$testid$", testID)];
    var p := head + "$year$" + a + "$term$" + b + "$testid$" + tail;
    assert rs[..2][..1] == [rs[0]] && rs[..2][..1][..0] == [] && rs[..3] == rs && rs[..2] == rs[..3][..2];
    YearSlot(head, a, b, tail, year);
    var s1 := head + year + a + "$term$" + b + "$testid$" + tail;
    assert Substitute(p, rs[..1]) == s1;
    TermSlot(head + year + a, b, tail, term);
    var s2 := head + year + a + term + b + "$testid$" + tail;
    assert Substitute(p, rs[..2]) == s2;
    ExamSlot(head + year + a + term + b, tail, testID);
  }

  /**
   * The score page path with the year, term and examination substituted,
   * for a year and term free of `$`: the three values take the
   * placeholders' places and nothing else changes.
   */
  lemma ScorePath(year: string, term: string, testID: string)
    requires '$' !in year && '$' !in term
    ensures Substitute(Path(Score), [ReplaceString("$year$", year), ReplaceString("$term$", term), ReplaceString("$testid$", testID)])
         == SCORE_HEAD + year + SCORE_TERM + term + SCORE_NUMBER + testID + SCORE_TAIL
  {
    assert '$' !in SCORE_HEAD && '$' !in SCORE_TERM && '$' !in SCORE_NUMBER && '$' !in SCORE_TAIL;
    assert 'y' !in SCORE_TERM && 'y' !in SCORE_NUMBER && 'y' !in SCORE_TAIL;
    ThreeSlots(SCORE_HEAD, SCORE_TERM, SCORE_NUMBER, SCORE_TAIL, year, term, testID);
  }

  // ---------------------------------------------------------------------
  // Upstream exchange

  datatype Method = GET | POST

  /** The content type of every request that carries a body. */
  const FORM_CONTENT_TYPE: string := "application/x-www-form-urlencoded"

  /**
   * A request as the broker sends it: a form body is a list of field
   * names and values in declaration order.
   */
  datatype Request = Request(
    verb: Method,
    url: string,
    headers: map<string, string>,
    form: Option<seq<(string, string)>>,
    followRedirects: bool)

  /** An upstream reply: its status, headers, parsed body and raw bytes. */
  datatype Response = Response(status: nat, headers: map<string, string>, document: Element, bytes: seq<bv8>)

  /** The network: a reply, or None when the request could not be completed. */
  type Transport = Request -> Option<Response>

  /** Why an upstream request is reported as failed. */
  datatype HTTPErrorReturn = RequestError | StatusCodeError(code: nat)

  predicate IsSuccess(status: nat) { 200 <= status < 300 }
  predicate IsRedirection(status: nat) { 300 <= status < 400 }

  /**
   * The request `http_request` builds: redirects are never followed, and a
   * body goes with the form content type; no other header is added.
   */
  function HttpRequest(verb: Method, url: string, headers: Option<map<string, string>>, body: Option<seq<(string, string)>>): (r: Request)
    ensures !r.followRedirects
    ensures r.verb == verb && r.url == url && r.form == body
    ensures body.Some? ==> "Content-Type" in r.headers && r.headers["Content-Type"] == FORM_CONTENT_TYPE
    ensures body.None? ==> r.headers == (if headers.Some? then headers.value else map[])
    ensures forall k | k in r.headers && k != "Content-Type" :: headers.Some? && k in headers.value && r.headers[k] == headers.value[k]
  {
    var given := if headers.Some? then headers.value else map[];
    var all := if body.Some? then given["Content-Type" := FORM_CONTENT_TYPE] else given;
    Request(verb, url, all, body, false)
  }

  /** The status filter of `http_get` and `http_post`: any reply that is neither 2xx nor 3xx is an error. */
  function Filter(sent: Option<Response>): (r: Result<Response, HTTPErrorReturn>)
    ensures r == Err(RequestError) <==> sent.None?
    ensures r.Err? && r.error.StatusCodeError? <==>
      sent.Some? && !IsSuccess(sent.value.status) && !IsRedirection(sent.value.status)
    ensures r.Err? && r.error.StatusCodeError? ==> r.error.code == sent.value.status
    ensures r.Ok? ==> sent == Some(r.value) && (IsSuccess(r.value.status) || IsRedirection(r.value.status))
  {
    match sent
    case None => Err(RequestError)
    case Some(resp) =>
      if !IsSuccess(resp.status) && !IsRedirection(resp.status) then Err(StatusCodeError(resp.status))
      else Ok(resp)
  }

  /** `http_get` (and `http_get_html`, whose document is part of the reply here). */
  function HttpGet(url: string, headers: Option<map<string, string>>, send: Transport): (r: Result<Response, HTTPErrorReturn>)
    ensures r == Err(RequestError) <==> send(HttpRequest(GET, url, headers, None)).None?
    ensures r.Err? && r.error.StatusCodeError? <==>
      && send(HttpRequest(GET, url, headers, None)).Some?
      && var status := send(HttpRequest(GET, url, headers, None)).value.status;
      && !IsSuccess(status) && !IsRedirection(status)
    ensures r.Err? && r.error.StatusCodeError? ==> r.error.code == send(HttpRequest(GET, url, headers, None)).value.status
    ensures r.Ok? ==> send(HttpRequest(GET, url, headers, None)) == Some(r.value)
                      && (IsSuccess(r.value.status) || IsRedirection(r.value.status))
  {
    Filter(send(HttpRequest(GET, url, headers, None)))
  }

  /** `http_post` with a form body. */
  function HttpPost(url: string, body: seq<(string, string)>, headers: Option<map<string, string>>, send: Transport): (r: Result<Response, HTTPErrorReturn>)
    ensures r == Err(RequestError) <==> send(HttpRequest(POST, url, headers, Some(body))).None?
    ensures r.Err? && r.error.StatusCodeError? <==>
      && send(HttpRequest(POST, url, headers, Some(body))).Some?
      && var status := send(HttpRequest(POST, url, headers, Some(body))).value.status;
      && !IsSuccess(status) && !IsRedirection(status)
    ensures r.Err? && r.error.StatusCodeError? ==> r.error.code == send(HttpRequest(POST, url, headers, Some(body))).value.status
    ensures r.Ok? ==> send(HttpRequest(POST, url, headers, Some(body))) == Some(r.value)
                      && (IsSuccess(r.value.status) || IsRedirection(r.value.status))
  {
    Filter(send(HttpRequest(POST, url, headers, Some(body))))
  }

  /** A redirect is not followed, so it reaches the caller as a success carrying the 3xx reply itself. */
  lemma RedirectIsReturned(url: string, headers: Option<map<string, string>>, send: Transport)
    requires send(HttpRequest(GET, url, headers, None)).Some?
    requires IsRedirection(send(HttpRequest(GET, url, headers, None)).value.status)
    ensures HttpGet(url, headers, send) == Ok(send(HttpRequest(GET, url, headers, None)).value)
  {
  }
}
