/**
 * The full profile: the name/value pairs of the portal's profile table
 * and the profile photo, fetched with the session cookie and returned as
 * a data URL.
 */
module GetUserProfile {
  import opened Wrappers
  import opened Strings
  import opened Errors
  import opened Types
  import opened Http
  import opened Page
  import opened Utils

  const PROFILE_IMAGE_SELECTOR: string := "img"
  const DATA_SELECTOR: string := "table[class='le_04 padding2 spacing2'] tr"
  const FIELDS_SELECTOR: string := "td"

  const BASE64_IMAGE_HEAD: string := "data:image/png;base64,"

  /** The route reports its errors under the login path, as the broker does. */
  const API_PATH: string := "/v1/login"

  const API_MESSAGE: string := "Get user profile successful"

  /** The ideographic space the portal pads its labels with. */
  const IDEOGRAPHIC_SPACE: string := "\U{3000}"

  // ---------------------------------------------------------------------
  // The profile table

  /** A label cell: its text without spaces, ideographic spaces or newlines. */
  function CleanName(cell: Element): (name: string)
    ensures ' ' !in name && '\U{3000}' !in name && '\n' !in name
  {
    var a := Remove(Text(cell), " ");
    var b := Remove(a, IDEOGRAPHIC_SPACE);
    RemoveChar(Text(cell), ' ');
    RemoveChar(a, '\U{3000}');
    RemoveAddsNothing(a, IDEOGRAPHIC_SPACE);
    RemoveChar(b, '\n');
    Remove(b, "\n")
  }

  /** A value cell: its text without spaces, CRLF pairs or newlines. */
  function CleanValue(cell: Element): (value: string)
    ensures ' ' !in value && '\n' !in value
  {
    CompactText(Text(cell))
  }

  /** The cells of a table row that are read: all of them, or all but the first when there are more than four. */
  function Fields(row: Element): (fields: seq<Element>)
    ensures |Select(row, FIELDS_SELECTOR)| > 4 ==> fields == Select(row, FIELDS_SELECTOR)[1..]
    ensures |Select(row, FIELDS_SELECTOR)| <= 4 ==> fields == Select(row, FIELDS_SELECTOR)
  {
    var cells := Select(row, FIELDS_SELECTOR);
    if |cells| > 4 then cells[1..] else cells
  }

  /** The entry of the `i`-th pair of cells: a label and the value after it. */
  function Entry(fields: seq<Element>, i: nat): UserDataValues
    requires 2 * i + 1 < |fields|
  {
    UserDataValues(CleanName(fields[2 * i]), CleanValue(fields[2 * i + 1]))
  }

  /** The entries of one row: consecutive label/value pairs; an odd last cell is ignored. */
  function RowEntries(fields: seq<Element>): (entries: seq<UserDataValues>)
    ensures |entries| == |fields| / 2
  {
    seq(|fields| / 2, i requires 0 <= i < |fields| / 2 => Entry(fields, i))
  }

  /** The entries of all rows, row after row. */
  function ProfileEntries(rows: seq<Element>): seq<UserDataValues>
    decreases |rows|
  {
    if rows == [] then []
    else ProfileEntries(rows[..|rows| - 1]) + RowEntries(Fields(rows[|rows| - 1]))
  }

  /** One more even index adds the next pair of the row. */
  lemma RowEntriesStep(felids: seq<Element>, index: nat)
    requires 2 <= index <= |felids| && index % 2 == 0
    ensures RowEntries(felids)[..index / 2] ==
      RowEntries(felids)[..(index - 1) / 2] + [UserDataValues(CleanName(felids[index - 2]), CleanValue(felids[index - 1]))]
  {
    assert (index - 1) / 2 == index / 2 - 1;
    assert RowEntries(felids)[index / 2 - 1] == Entry(felids, index / 2 - 1);
  }

  /** One more row adds that row's entries. */
  lemma ProfileEntriesStep(rows: seq<Element>, r: nat)
    requires r < |rows|
    ensures ProfileEntries(rows[..r + 1]) == ProfileEntries(rows[..r]) + RowEntries(Fields(rows[r]))
  {
    assert rows[..r + 1][..r] == rows[..r];
  }

  /**
   * The inner loop of `get_datas`: with a running cell index from 1, a pair
   * is emitted at every even index.
   */
  method RowPairs(felids: seq<Element>) returns (entries: seq<UserDataValues>)
    ensures entries == RowEntries(felids)
  {
    entries := [];
    var index := 1;
    while index <= |felids|
      invariant 1 <= index <= |felids| + 1
      invariant entries == RowEntries(felids)[..(index - 1) / 2]
    {
      if index % 2 == 0 && index != 0 {
        RowEntriesStep(felids, index);
        entries := entries + [UserDataValues(CleanName(felids[index - 2]), CleanValue(felids[index - 1]))];
      }
      index := index + 1;
    }
    assert RowEntries(felids)[..|felids| / 2] == RowEntries(felids);
  }

  /** `get_datas`: every row's cells, the first dropped from a row of more than four, give that row's pairs. */
  method GetDatas(rows: seq<Element>) returns (vector: seq<UserDataValues>)
    ensures vector == ProfileEntries(rows)
  {
    vector := [];
    for r := 0 to |rows|
      invariant vector == ProfileEntries(rows[..r])
    {
      var felids := Select(rows[r], FIELDS_SELECTOR);
      if |felids| > 4 {
        felids := felids[1..];
      }
      var entries := RowPairs(felids);
      ProfileEntriesStep(rows, r);
      vector := vector + entries;
    }
    assert rows[..|rows|] == rows;
  }

  /** Every label read is free of spaces of either kind and of newlines; every value of spaces and newlines. */
  lemma {:induction false} EntriesClean(rows: seq<Element>)
    ensures forall e | e in ProfileEntries(rows) ::
      ' ' !in e.name && '\U{3000}' !in e.name && '\n' !in e.name && ' ' !in e.value && '\n' !in e.value
    decreases |rows|
  {
    if rows != [] {
      EntriesClean(rows[..|rows| - 1]);
    }
  }

  /** Each row gives half its read cells, rounded down, in order. */
  lemma {:induction false} EntriesCount(rows: seq<Element>)
    ensures |ProfileEntries(rows)| == SumHalves(rows)
    decreases |rows|
  {
    if rows != [] {
      EntriesCount(rows[..|rows| - 1]);
    }
  }

  function SumHalves(rows: seq<Element>): nat
    decreases |rows|
  {
    if rows == [] then 0 else SumHalves(rows[..|rows| - 1]) + |Fields(rows[|rows| - 1])| / 2
  }

  /**
   * A row of five cells loses its first cell and gives two entries; a row
   * of four keeps all four and gives two; a row of three gives one and
   * ignores its last cell.
   */
  lemma RowShapes(row: Element)
    ensures |Select(row, FIELDS_SELECTOR)| == 5 ==>
      RowEntries(Fields(row)) == [Entry(Select(row, FIELDS_SELECTOR)[1..], 0), Entry(Select(row, FIELDS_SELECTOR)[1..], 1)]
      && Entry(Select(row, FIELDS_SELECTOR)[1..], 0).name == CleanName(Select(row, FIELDS_SELECTOR)[1])
    ensures |Select(row, FIELDS_SELECTOR)| == 4 ==>
      RowEntries(Fields(row))[0].name == CleanName(Select(row, FIELDS_SELECTOR)[0])
      && |RowEntries(Fields(row))| == 2
    ensures |Select(row, FIELDS_SELECTOR)| == 3 ==>
      RowEntries(Fields(row)) == [Entry(Select(row, FIELDS_SELECTOR), 0)]
  {
  }

  // ---------------------------------------------------------------------
  // The photo

  /**
   * `get_image`: the first image's source with every "../" removed is read
   * as a path under a dummy origin, and its `id` query parameter names the
   * photo; the photo is fetched with the session cookie and returned as a
   * PNG data URL. A missing image, source or id, or a failed fetch, panics.
   * `queryParam` stands for the URL parser's lookup of a query parameter.
   */
  function GetImage(token: AuthToken, document: Element, queryParam: (string, string) -> Option<string>,
                    send: Transport, base64: seq<bv8> -> string): (r: Option<string>)
    ensures r.Some? <==>
      && First(document, PROFILE_IMAGE_SELECTOR).Some?
      && Attr(First(document, PROFILE_IMAGE_SELECTOR).value, "src").Some?
      && var path := Remove(Attr(First(document, PROFILE_IMAGE_SELECTOR).value, "src").value, "../");
      && queryParam("http://example.com/" + path, "id").Some?
      && HttpGet(CombinePath(token.host, IMAGE_HEAD + queryParam("http://example.com/" + path, "id").value),
                 Some(CreateAuthHeader(token.cookie)), send).Ok?
    ensures r.Some? ==>
      var path := Remove(Attr(First(document, PROFILE_IMAGE_SELECTOR).value, "src").value, "../");
      var id := queryParam("http://example.com/" + path, "id").value;
      r.value == BASE64_IMAGE_HEAD + base64(HttpGet(CombinePath(token.host, IMAGE_HEAD + id), Some(CreateAuthHeader(token.cookie)), send).value.bytes)
  {
    match First(document, PROFILE_IMAGE_SELECTOR)
    case None => None
    case Some(img) =>
      match Attr(img, "src")
      case None => None
      case Some(src) =>
        var path := Remove(src, "../");
        match queryParam("http://example.com/" + path, "id")
        case None => None
        case Some(id) =>
          ImagePath(id);
          var page := CombinePath(token.host, Substitute(Path(ProfileImage), [ReplaceString("$imgid$", id)]));
          match HttpGet(page, Some(CreateAuthHeader(token.cookie)), send)
          case Err(_) => None
          case Ok(resp) => Some(BASE64_IMAGE_HEAD + base64(resp.bytes))
  }

  // ---------------------------------------------------------------------
  // The route

  /**
   * The route: a failed fetch is reported as any upstream failure; a
   * non-2xx page that shows the logged-out marker is an expired session;
   * otherwise the table entries and the photo are returned, and a photo
   * that cannot be read panics.
   */
  method Api(auth: AuthToken, queryParam: (string, string) -> Option<string>, send: Transport,
             base64: seq<bv8> -> string, now: nat) returns (r: Reply<Envelope<UserCollect>>)
    ensures SessionGet(auth.host, auth.cookie, Profile, send).Err? ==>
      r == Fail(GenerateHttpError(API_PATH, SessionGet(auth.host, auth.cookie, Profile, send).error, now))
    ensures SessionGet(auth.host, auth.cookie, Profile, send).Ok? ==>
      var page := SessionGet(auth.host, auth.cookie, Profile, send).value;
      if !IsSuccess(page.status) && !IsDocumentLogined(page.document) then
        r == Fail(GenerateSessionExpireError(API_PATH, now))
      else match GetImage(auth, page.document, queryParam, send, base64)
        case None => r == Panic
        case Some(img) =>
          r == Done(Envelope(API_MESSAGE, UserCollect(ProfileEntries(Select(page.document, DATA_SELECTOR)), img)))
  {
    var data := SessionGet(auth.host, auth.cookie, Profile, send);
    if data.Err? {
      return Fail(GenerateHttpError(API_PATH, data.error, now));
    }
    var page := data.value;
    if !IsSuccess(page.status) && !IsDocumentLogined(page.document) {
      return Fail(GenerateSessionExpireError(API_PATH, now));
    }
    var image := GetImage(auth, page.document, queryParam, send, base64);
    var entries := GetDatas(Select(page.document, DATA_SELECTOR));
    if image.None? {
      return Panic;
    }
    r := Done(Envelope(API_MESSAGE, UserCollect(entries, image.value)));
  }
}
