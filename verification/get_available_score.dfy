/**
 * The exams whose scores can be asked for: the options of the portal's
 * exam list, each read from the query string of its value and from its
 * own text.
 */
module GetAvailableScore {
  import opened Wrappers
  import opened Strings
  import opened Types
  import opened Http
  import opened Page
  import opened Utils

  const LIST_SELECTOR: string := "#ddlExamList > option"

  const API_PATH: string := "/v1/getAvailableScore"
  const API_MESSAGE: string := "Get available score data successful"

  /** The option text that marks a regular-assessment exam. */
  const REGULAR_ASSESSMENT: string := "平時成績"

  /** The dummy origin an option value is read under. */
  const DUMMY_ORIGIN: string := "http://example.com/"

  /** The URL parser: the query pairs of a URL, or None when it does not parse. */
  type QueryParser = string -> Option<seq<(string, string)>>

  /** The lookup of a query parameter's value among the pairs. */
  type ParamFinder = (seq<(string, string)>, string) -> string

  /** An option can be read when it has a value that parses as a URL under the dummy origin, and its exam id has a fourth byte. */
  predicate OptionReadable(option: Element, parse: QueryParser, find: ParamFinder)
  {
    && Attr(option, "value").Some?
    && parse(DUMMY_ORIGIN + Attr(option, "value").value).Some?
    && ByteSlice(find(parse(DUMMY_ORIGIN + Attr(option, "value").value).value, "number"), 3, 4).Some?
  }

  /** The exam kind: 2 for a regular assessment, else 1. */
  function Kind(name: string): (kind: nat)
    ensures kind == 2 <==> Contains(name, REGULAR_ASSESSMENT)
    ensures kind == 1 <==> !Contains(name, REGULAR_ASSESSMENT)
  {
    if Contains(name, REGULAR_ASSESSMENT) then 2 else 1
  }

  /**
   * The entry of one option: its inner HTML as the name, the year and term
   * parameters parsed leniently and cut to a byte, the `number` parameter
   * as the exam id, and the exam id's fourth byte parsed as the sitting.
   */
  function OptionValue(option: Element, parse: QueryParser, find: ParamFinder): (v: AvailableScoreValue)
    requires OptionReadable(option, parse, find)
    ensures v.year < 256 && v.term < 256 && v.times < 256
    ensures v.name == option.inner && (v.kind == 1 || v.kind == 2)
  {
    var pairs := parse(DUMMY_ORIGIN + Attr(option, "value").value).value;
    var testID := find(pairs, "number");
    AvailableScoreValue(
      name := option.inner,
      year := AsU8(ConvertStringToU32(find(pairs, "thisyear"))),
      term := AsU8(ConvertStringToU32(find(pairs, "thisterm"))),
      testID := testID,
      times := AsU8(ConvertStringToU32(ByteSlice(testID, 3, 4).value)),
      kind := Kind(option.inner))
  }

  /**
   * The loop over the options after the first two: one entry per option,
   * in order.
   */
  method OptionList(options: seq<Element>, parse: QueryParser, find: ParamFinder) returns (data: seq<AvailableScoreValue>)
    requires forall i | 0 <= i < |options| :: OptionReadable(options[i], parse, find)
    ensures |data| == |options|
    ensures forall i | 0 <= i < |options| :: data[i] == OptionValue(options[i], parse, find)
  {
    data := [];
    for k := 0 to |options|
      invariant |data| == k
      invariant forall i | 0 <= i < k :: data[i] == OptionValue(options[i], parse, find)
    {
      var ele := options[k];
      var pairs := parse(DUMMY_ORIGIN + Attr(ele, "value").value).value;
      var inner := ele.inner;
      var testID := find(pairs, "number");
      data := data + [AvailableScoreValue(
        name := inner,
        year := AsU8(ConvertStringToU32(find(pairs, "thisyear"))),
        term := AsU8(ConvertStringToU32(find(pairs, "thisterm"))),
        testID := testID,
        times := AsU8(ConvertStringToU32(ByteSlice(testID, 3, 4).value)),
        kind := if Contains(inner, REGULAR_ASSESSMENT) then 2 else 1)];
    }
  }

  /** The page can be read: at least two options to drop, and every later option readable. */
  predicate PageReadable(document: Element, parse: QueryParser, find: ParamFinder)
  {
    && |Select(document, LIST_SELECTOR)| >= 2
    && forall i | 2 <= i < |Select(document, LIST_SELECTOR)| :: OptionReadable(Select(document, LIST_SELECTOR)[i], parse, find)
  }

  /**
   * The route: the exam list page is fetched with the session cookie; a
   * non-2xx page is an expired session; the first two options are dropped
   * and every other one gives an entry. A page with fewer than two options,
   * or an option that cannot be read, panics.
   */
  method Api(auth: AuthToken, checkedGet: CheckedGet, parse: QueryParser, find: ParamFinder, now: nat)
    returns (r: Reply<Envelope<seq<AvailableScoreValue>>>)
    ensures var fetched := checkedGet(API_PATH, CombinePagePath(auth.host, ScoreList), Some(CreateAuthHeader(auth.cookie)));
      if fetched.Err? then r == Fail(fetched.error)
      else if !IsSuccess(fetched.value.status) then r == Fail(GenerateSessionExpireError(API_PATH, now))
      else if !PageReadable(fetched.value.document, parse, find) then r == Panic
      else
        var options := Select(fetched.value.document, LIST_SELECTOR);
        && r.Done? && r.value.message == API_MESSAGE
        && |r.value.data| == |options| - 2
        && forall i | 0 <= i < |r.value.data| :: r.value.data[i] == OptionValue(options[i + 2], parse, find)
  {
    var page := CombinePagePath(auth.host, ScoreList);
    var respond := checkedGet(API_PATH, page, Some(CreateAuthHeader(auth.cookie)));
    if respond.Err? {
      return Fail(respond.error);
    }
    if !IsSuccess(respond.value.status) {
      return Fail(GenerateSessionExpireError(API_PATH, now));
    }
    var selected := Select(respond.value.document, LIST_SELECTOR);
    if |selected| < 2 {
      return Panic;
    }
    selected := selected[1..];
    selected := selected[1..];
    if !forall i | 0 <= i < |selected| :: OptionReadable(selected[i], parse, find) {
      return Panic;
    }
    var data := OptionList(selected, parse, find);
    r := Done(Envelope(API_MESSAGE, data));
  }

  /**
   * On an exam id whose first four characters are ASCII and whose fourth is
   * a digit, the sitting is that digit.
   */
  lemma TimesIsFourthDigit(option: Element, parse: QueryParser, find: ParamFinder)
    requires Attr(option, "value").Some? && parse(DUMMY_ORIGIN + Attr(option, "value").value).Some?
    requires var id := find(parse(DUMMY_ORIGIN + Attr(option, "value").value).value, "number");
      && |id| >= 4 && (forall i | 0 <= i < 4 :: (id[i] as int) < 0x80) && '0' <= id[3] <= '9'
    ensures OptionReadable(option, parse, find)
    ensures var id := find(parse(DUMMY_ORIGIN + Attr(option, "value").value).value, "number");
      OptionValue(option, parse, find).times == id[3] as int - '0' as int
  {
    var id := find(parse(DUMMY_ORIGIN + Attr(option, "value").value).value, "number");
    AsciiByteSlice(id);
    var d := id[3] as int - '0' as int;
    assert DecimalString(d) == [id[3]];
    ParseDecimal(d);
  }

  /** A year or term that is a number below 256 is read as itself. */
  lemma SmallYearKept(option: Element, parse: QueryParser, find: ParamFinder, year: nat)
    requires OptionReadable(option, parse, find) && year < 256
    requires find(parse(DUMMY_ORIGIN + Attr(option, "value").value).value, "thisyear") == DecimalString(year)
    ensures OptionValue(option, parse, find).year == year
  {
    ParseDecimal(year);
  }
}
