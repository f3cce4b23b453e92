/**
 * Rewards and punishments: the totals of the portal's summary table and
 * one entry per record row of its detail table.
 */
module GetRewardAndPunish {
  import opened Wrappers
  import opened Strings
  import opened Types
  import opened Http
  import opened Page
  import opened Utils

  const SUMMARIZE_TABLE: string := "table > tbody"
  const TR_SELECT: string := "tr"
  const TD_SELECT: string := "td"
  const ROW_DATA: string := "tr.dataRow"

  const API_PATH: string := "/v1/getRewAndPun"
  const API_MESSAGE: string := "Get reward and punish successful"

  /** The no-break space the portal puts in a cell with no date. */
  const NO_BREAK_SPACE: string := "\U{A0}"

  /** The number of columns a detail row is read from. */
  const DETAIL_COLUMNS: nat := 7

  // ---------------------------------------------------------------------
  // The summary

  /** The cell texts of a summary row after its first cell. */
  function RowTexts(row: Element): seq<string>
    requires |Select(row, TD_SELECT)| > 0
  {
    Rendered(Select(row, TD_SELECT)[1..])
  }

  /** The entry of the `j`-th pair of texts: a kind and its count, parsed leniently and cut to 16 bits. */
  function Pair(texts: seq<string>, j: nat): RewardAndPunishStatus
    requires 2 * j + 1 < |texts|
  {
    RewardAndPunishStatus(texts[2 * j], AsU16(ConvertStringToU32(texts[2 * j + 1])))
  }

  /** The entries of a row's texts: consecutive kind/count pairs; an odd last text is ignored. */
  function Pairs(texts: seq<string>): (entries: seq<RewardAndPunishStatus>)
    ensures |entries| == |texts| / 2
  {
    seq(|texts| / 2, j requires 0 <= j < |texts| / 2 => Pair(texts, j))
  }

  /** Every summary row after the header needs a cell to drop. */
  predicate SummaryRowsReadable(rows: seq<Element>)
  {
    forall i | 0 <= i < |rows| :: |Select(rows[i], TD_SELECT)| > 0
  }

  /** The entries of all rows, row after row. */
  function Statuses(rows: seq<Element>): seq<RewardAndPunishStatus>
    requires SummaryRowsReadable(rows)
    decreases |rows|
  {
    if rows == [] then []
    else Statuses(rows[..|rows| - 1]) + Pairs(RowTexts(rows[|rows| - 1]))
  }

  /** The summary body: the second-to-last table body of the page. */
  function SummaryBody(document: Element): Element
    requires |Select(document, SUMMARIZE_TABLE)| >= 2
  {
    Select(document, SUMMARIZE_TABLE)[|Select(document, SUMMARIZE_TABLE)| - 2]
  }

  /** The summary can be read: two table bodies, a header row in the second-to-last, and a cell in every later row. */
  predicate SummaryReadable(document: Element)
  {
    && |Select(document, SUMMARIZE_TABLE)| >= 2
    && |Select(SummaryBody(document), TR_SELECT)| > 0
    && SummaryRowsReadable(Select(SummaryBody(document), TR_SELECT)[1..])
  }

  /** The summary rows that are read: those of the summary body after its header. */
  function SummaryRows(document: Element): (rows: seq<Element>)
    requires SummaryReadable(document)
    ensures SummaryRowsReadable(rows)
  {
    Select(SummaryBody(document), TR_SELECT)[1..]
  }

  /** One more odd index adds the next pair of the row. */
  lemma PairsStep(tds: seq<string>, index: nat)
    requires 1 <= index < |tds| && index % 2 == 1
    ensures Pairs(tds)[..(index + 1) / 2] ==
      Pairs(tds)[..(index - 1) / 2] + [RewardAndPunishStatus(tds[index - 1], AsU16(ConvertStringToU32(tds[index])))]
  {
    assert (index + 1) / 2 == (index - 1) / 2 + 1;
    assert Pairs(tds)[(index - 1) / 2] == Pair(tds, (index - 1) / 2);
  }

  /** One more row adds that row's pairs. */
  lemma StatusesStep(rows: seq<Element>, r: nat)
    requires r < |rows| && SummaryRowsReadable(rows)
    ensures SummaryRowsReadable(rows[..r]) && SummaryRowsReadable(rows[..r + 1])
    ensures Statuses(rows[..r + 1]) == Statuses(rows[..r]) + Pairs(RowTexts(rows[r]))
  {
    assert rows[..r + 1][..r] == rows[..r];
    assert rows[..r + 1][r] == rows[r];
  }

  /** The inner loop of `get_summarize`: the cells from index 1 in steps of two, each with the cell before it. */
  method RowStatuses(tds: seq<string>) returns (pairs: seq<RewardAndPunishStatus>)
    ensures pairs == Pairs(tds)
  {
    pairs := [];
    var index := 1;
    while index < |tds|
      invariant 1 <= index && index % 2 == 1
      invariant index <= |tds| + 1
      invariant pairs == Pairs(tds)[..(index - 1) / 2]
    {
      PairsStep(tds, index);
      pairs := pairs + [RewardAndPunishStatus(tds[index - 1], AsU16(ConvertStringToU32(tds[index])))];
      index := index + 2;
    }
    assert (index - 1) / 2 == |tds| / 2;
    assert Pairs(tds)[..|tds| / 2] == Pairs(tds);
  }

  /**
   * `get_summarize`: drops the header row of the summary body and the
   * first cell of every other row, then pairs the remaining cells.
   */
  method GetSummarize(document: Element) returns (data: seq<RewardAndPunishStatus>)
    requires SummaryReadable(document)
    ensures data == Statuses(SummaryRows(document))
  {
    data := [];
    var select := Select(SummaryBody(document), TR_SELECT);
    select := select[1..];
    assert select == SummaryRows(document);
    for r := 0 to |select|
      invariant SummaryRowsReadable(select[..r])
      invariant data == Statuses(select[..r])
    {
      StatusesStep(select, r);
      var cells := Select(select[r], TD_SELECT);
      cells := cells[1..];
      var pairs := RowStatuses(Rendered(cells));
      data := data + pairs;
    }
    assert select[..|select|] == select;
  }

  /** The number of pairs of all rows: half of each row's cells after the first, rounded down. */
  function SumPairs(rows: seq<Element>): nat
    requires SummaryRowsReadable(rows)
    decreases |rows|
  {
    if rows == [] then 0 else SumPairs(rows[..|rows| - 1]) + (|Select(rows[|rows| - 1], TD_SELECT)| - 1) / 2
  }

  /** Each row of n cells gives floor((n - 1) / 2) entries, and every count fits 16 bits. */
  lemma {:induction false} StatusesCount(rows: seq<Element>)
    requires SummaryRowsReadable(rows)
    ensures |Statuses(rows)| == SumPairs(rows)
    ensures forall i | 0 <= i < |Statuses(rows)| :: Statuses(rows)[i].times < 0x1_0000
    decreases |rows|
  {
    if rows != [] {
      StatusesStep(rows, |rows| - 1);
      assert rows[..|rows| - 1 + 1] == rows;
      StatusesCount(rows[..|rows| - 1]);
    }
  }

  /** A row of five cells, a caption and two kind/count pairs, gives those two pairs. */
  lemma FiveCellRow(row: Element)
    requires |Select(row, TD_SELECT)| == 5
    ensures var c := Select(row, TD_SELECT);
      Pairs(RowTexts(row)) == [RewardAndPunishStatus(c[1].rendered, AsU16(ConvertStringToU32(c[2].rendered))),
                                RewardAndPunishStatus(c[3].rendered, AsU16(ConvertStringToU32(c[4].rendered)))]
  {
  }

  // ---------------------------------------------------------------------
  // The detail

  /** Every record row needs seven cells; otherwise the route panics. */
  predicate DetailReadable(document: Element)
  {
    forall i | 0 <= i < |Select(document, ROW_DATA)| :: |Select(Select(document, ROW_DATA)[i], TD_SELECT)| >= DETAIL_COLUMNS
  }

  /**
   * The entry of a record row's texts: kind, start, signing, reason and
   * execution from the first five columns, the written-off date from the
   * sixth unless it is a lone no-break space, and the year from the seventh.
   */
  function Detail(tds: seq<string>): (d: RewardAndPunishDetailValue)
    requires |tds| >= DETAIL_COLUMNS
    ensures d.kind == tds[0] && d.start == tds[1] && d.signed == tds[2] && d.reason == tds[3] && d.execute == tds[4]
    ensures d.sold.None? <==> tds[5] == NO_BREAK_SPACE
    ensures d.sold.Some? ==> d.sold.value == tds[5]
    ensures d.year < 0x1_0000
    ensures ParseU32(tds[6]).Some? && ParseU32(tds[6]).value < 0x1_0000 ==> d.year == ParseU32(tds[6]).value
  {
    RewardAndPunishDetailValue(
      kind := tds[0],
      start := tds[1],
      signed := tds[2],
      reason := tds[3],
      execute := tds[4],
      sold := if tds[5] == NO_BREAK_SPACE then None else Some(tds[5]),
      year := AsU16(ConvertStringToU32(tds[6])))
  }

  /** `get_detail`: one entry per record row, in order. */
  method GetDetail(document: Element) returns (data: seq<RewardAndPunishDetailValue>)
    requires DetailReadable(document)
    ensures |data| == |Select(document, ROW_DATA)|
    ensures forall i | 0 <= i < |data| :: data[i] == Detail(Rendered(Select(Select(document, ROW_DATA)[i], TD_SELECT)))
  {
    data := [];
    var select := Select(document, ROW_DATA);
    for k := 0 to |select|
      invariant |data| == k
      invariant forall i | 0 <= i < k :: data[i] == Detail(Rendered(Select(select[i], TD_SELECT)))
    {
      var tds := Rendered(Select(select[k], TD_SELECT));
      data := data + [RewardAndPunishDetailValue(
        kind := tds[0],
        start := tds[1],
        signed := tds[2],
        reason := tds[3],
        execute := tds[4],
        sold := if tds[5] == NO_BREAK_SPACE then None else Some(tds[5]),
        year := AsU16(ConvertStringToU32(tds[6])))];
    }
  }

  // ---------------------------------------------------------------------
  // The route

  /**
   * The route: the page is fetched with the session cookie; a non-2xx page
   * is an expired session; otherwise the summary and the detail are read
   * from the same page. A page either part cannot read panics.
   */
  method Api(auth: AuthToken, checkedGet: CheckedGet, now: nat) returns (r: Reply<Envelope<RewardAndPunishCollect>>)
    ensures var fetched := checkedGet(API_PATH, CombinePagePath(auth.host, RewardAndPunish), Some(CreateAuthHeader(auth.cookie)));
      if fetched.Err? then r == Fail(fetched.error)
      else if !IsSuccess(fetched.value.status) then r == Fail(GenerateSessionExpireError(API_PATH, now))
      else if !SummaryReadable(fetched.value.document) || !DetailReadable(fetched.value.document) then r == Panic
      else
        var doc := fetched.value.document;
        var rows := Select(doc, ROW_DATA);
        && r.Done? && r.value.message == API_MESSAGE
        && r.value.data.status == Statuses(SummaryRows(doc))
        && |r.value.data.detail| == |rows|
        && forall i | 0 <= i < |rows| :: r.value.data.detail[i] == Detail(Rendered(Select(rows[i], TD_SELECT)))
  {
    var page := CombinePagePath(auth.host, RewardAndPunish);
    var data := checkedGet(API_PATH, page, Some(CreateAuthHeader(auth.cookie)));
    if data.Err? {
      return Fail(data.error);
    }
    if !IsSuccess(data.value.status) {
      return Fail(GenerateSessionExpireError(API_PATH, now));
    }
    var raw := data.value.document;
    if !SummaryReadable(raw) || !DetailReadable(raw) {
      return Panic;
    }
    var summarize := GetSummarize(raw);
    var detail := GetDetail(raw);
    r := Done(Envelope(API_MESSAGE, RewardAndPunishCollect(detail := detail, status := summarize)));
  }
}
