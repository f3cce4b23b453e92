/**
 * The absence record: the per-term totals of the portal's summary table
 * and one record per row of its absence table.
 */
module GetLack {
  import opened Wrappers
  import opened Strings
  import opened Types
  import opened Http
  import opened Page
  import opened Utils

  const SUMMARIZE_TABLE_SELECT: string := "table.si_12.collapse.padding2.spacing0"
  const SUMMARIZE_RECORD_SELECT: string := "tr"
  const TD_SELECT: string := "td"
  const TABLE_SELECT: string := "table.padding2.spacing0"
  const RECORD_SELECT: string := "tr:not(.td_03.si_12.le_05.top.center)"

  const API_PATH: string := "/v1/getLack"
  const API_MESSAGE: string := "Get lack successful"

  /** The number of totals each term has. */
  const STATUS_COUNT: nat := 18

  /** The rendered texts of a row's cells, in order. */
  function CellTexts(row: Element): (texts: seq<string>)
    ensures |texts| == |Select(row, TD_SELECT)|
  {
    Rendered(Select(row, TD_SELECT))
  }

  // ---------------------------------------------------------------------
  // The totals

  /** A summary row is read unless its first cell spans columns. */
  predicate SummaryRowKept(row: Element)
    requires First(row, TD_SELECT).Some?
  {
    Attr(First(row, TD_SELECT).value, "colspan").None?
  }

  /** Every summary row needs a first cell; otherwise the route panics. */
  predicate SummaryRowsReadable(rows: seq<Element>)
  {
    forall i | 0 <= i < |rows| :: First(rows[i], TD_SELECT).Some?
  }

  /** The summary rows that are read, in order. */
  function KeptSummary(rows: seq<Element>): seq<Element>
    requires SummaryRowsReadable(rows)
    decreases |rows|
  {
    if rows == [] then []
    else
      var last := rows[|rows| - 1];
      KeptSummary(rows[..|rows| - 1]) + (if SummaryRowKept(last) then [last] else [])
  }

  /** The cell texts of the summary rows that are read. */
  function SummaryTexts(rows: seq<Element>): (summary: seq<seq<string>>)
    requires SummaryRowsReadable(rows)
    ensures |summary| == |KeptSummary(rows)|
  {
    var kept := KeptSummary(rows);
    seq(|kept|, i requires 0 <= i < |kept| => CellTexts(kept[i]))
  }

  /** A row is read as a summary row exactly when it is one of the rows and its first cell does not span columns. */
  lemma {:induction false} KeptSummaryExact(rows: seq<Element>)
    requires SummaryRowsReadable(rows)
    ensures forall row | row in KeptSummary(rows) :: row in rows && First(row, TD_SELECT).Some? && SummaryRowKept(row)
    ensures forall i | 0 <= i < |rows| && SummaryRowKept(rows[i]) :: rows[i] in KeptSummary(rows)
    decreases |rows|
  {
    if rows != [] {
      var front := rows[..|rows| - 1];
      KeptSummaryExact(front);
      forall i | 0 <= i < |rows| && SummaryRowKept(rows[i]) ensures rows[i] in KeptSummary(rows) {
        if i < |front| {
          assert rows[i] == front[i];
        }
      }
    }
  }

  /** The totals of one term: names from one row and values from the next, each parsed leniently and cut to 16 bits. */
  function TermStatus(names: seq<string>, values: seq<string>): (status: seq<LackStatusValue>)
    requires |names| >= STATUS_COUNT && |values| >= STATUS_COUNT
    ensures |status| == STATUS_COUNT
  {
    seq(STATUS_COUNT, i requires 0 <= i < STATUS_COUNT => LackStatusValue(names[i], AsU16(ConvertStringToU32(values[i]))))
  }

  /** The loop over the eighteen columns: both terms' totals, pushed side by side. */
  method TermLists(summary: seq<seq<string>>) returns (up: seq<LackStatusValue>, down: seq<LackStatusValue>)
    requires |summary| >= 4 && forall k | 0 <= k < 4 :: |summary[k]| >= STATUS_COUNT
    ensures up == TermStatus(summary[0], summary[1])
    ensures down == TermStatus(summary[2], summary[3])
  {
    up := [];
    down := [];
    for i := 0 to STATUS_COUNT
      invariant up == TermStatus(summary[0], summary[1])[..i]
      invariant down == TermStatus(summary[2], summary[3])[..i]
    {
      up := up + [LackStatusValue(summary[0][i], AsU16(ConvertStringToU32(summary[1][i])))];
      down := down + [LackStatusValue(summary[2][i], AsU16(ConvertStringToU32(summary[3][i])))];
    }
  }

  /** Each total carries its caption and its count: a count written in decimal below 65536 is read as itself, anything unreadable as 0. */
  lemma TermStatusValues(names: seq<string>, values: seq<string>, i: nat, n: nat)
    requires |names| >= STATUS_COUNT && |values| >= STATUS_COUNT && i < STATUS_COUNT
    ensures TermStatus(names, values)[i].name == names[i]
    ensures TermStatus(names, values)[i].value < 0x1_0000
    ensures values[i] == DecimalString(n) && n < 0x1_0000 ==> TermStatus(names, values)[i].value == n
    ensures ParseU32(values[i]).None? ==> TermStatus(names, values)[i].value == 0
  {
    if values[i] == DecimalString(n) && n < 0x1_0000 {
      ParseDecimal(n);
    }
  }

  // ---------------------------------------------------------------------
  // The records

  /** The record of a row with these cell texts: week, date, a skipped cell, then one slot per later cell, empty when blank. */
  function Record(texts: seq<string>): (rec: LackRecordValue)
    ensures rec.week == (if |texts| >= 1 then texts[0] else "")
    ensures rec.date == (if |texts| >= 2 then texts[1] else "")
    ensures |rec.data| == (if |texts| > 3 then |texts| - 3 else 0)
    ensures forall j | 0 <= j < |rec.data| :: (rec.data[j].None? <==> texts[j + 3] == "")
    ensures forall j | 0 <= j < |rec.data| :: rec.data[j].Some? ==> rec.data[j].value == texts[j + 3]
  {
    var slots := if |texts| > 3 then |texts| - 3 else 0;
    LackRecordValue(
      data := seq(slots, j requires 0 <= j < slots => if texts[j + 3] != "" then Some(texts[j + 3]) else None),
      date := if |texts| >= 2 then texts[1] else "",
      week := if |texts| >= 1 then texts[0] else "")
  }

  /** The counting loop over a row's cells: the first is the week, the second the date, the third is skipped. */
  method RecordOf(row: Element) returns (data: LackRecordValue)
    ensures data == Record(CellTexts(row))
  {
    var texts := CellTexts(row);
    var i := 0;
    var datas: seq<Option<string>> := [];
    data := LackRecordValue([], "", "");
    for k := 0 to |texts|
      invariant i == k
      invariant data.week == Record(texts[..k]).week && data.date == Record(texts[..k]).date
      invariant datas == Record(texts[..k]).data
    {
      i := i + 1;
      var text := texts[k];
      assert texts[..k + 1][..k] == texts[..k];
      if i == 1 {
        data := data.(week := text);
      } else if i == 2 {
        data := data.(date := text);
      } else if i != 3 {
        datas := datas + [if text != "" then Some(text) else None];
      }
    }
    assert texts[..|texts|] == texts;
    data := data.(data := datas);
  }

  /** The records of the rows, one per row in order. */
  method RecordList(rows: seq<Element>) returns (record: seq<LackRecordValue>)
    ensures |record| == |rows|
    ensures forall i | 0 <= i < |rows| :: record[i] == Record(CellTexts(rows[i]))
  {
    record := [];
    for k := 0 to |rows|
      invariant |record| == k
      invariant forall i | 0 <= i < k :: record[i] == Record(CellTexts(rows[i]))
    {
      var data := RecordOf(rows[k]);
      record := record + [data];
    }
  }

  // ---------------------------------------------------------------------
  // The route

  /**
   * The page can be read: it has a summary table whose rows all have a
   * first cell, at least four summary rows are read and each of the first
   * four has eighteen cells, and it has an absence table.
   */
  predicate PageReadable(document: Element)
  {
    && First(document, SUMMARIZE_TABLE_SELECT).Some?
    && var rows := Select(First(document, SUMMARIZE_TABLE_SELECT).value, SUMMARIZE_RECORD_SELECT);
    && SummaryRowsReadable(rows)
    && |SummaryTexts(rows)| >= 4
    && (forall k | 0 <= k < 4 :: |SummaryTexts(rows)[k]| >= STATUS_COUNT)
    && First(document, TABLE_SELECT).Some?
  }

  /**
   * The route: the absence page is fetched with the session cookie; the
   * upper term's totals come from the first two summary rows read and the
   * lower term's from the next two; every absence row gives a record. A
   * page that cannot be read panics.
   */
  method Api(auth: AuthToken, checkedGet: CheckedGet) returns (r: Reply<Envelope<LackCollect>>)
    ensures var fetched := checkedGet(API_PATH, CombinePagePath(auth.host, Lack), Some(CreateAuthHeader(auth.cookie)));
      if fetched.Err? then r == Fail(fetched.error)
      else if !PageReadable(fetched.value.document) then r == Panic
      else
        var doc := fetched.value.document;
        var summary := SummaryTexts(Select(First(doc, SUMMARIZE_TABLE_SELECT).value, SUMMARIZE_RECORD_SELECT));
        var rows := Select(First(doc, TABLE_SELECT).value, RECORD_SELECT);
        && r.Done? && r.value.message == API_MESSAGE
        && r.value.data.total == LackStatus(termDown := TermStatus(summary[2], summary[3]), termUp := TermStatus(summary[0], summary[1]))
        && |r.value.data.record| == |rows|
        && forall i | 0 <= i < |rows| :: r.value.data.record[i] == Record(CellTexts(rows[i]))
  {
    var page := CombinePagePath(auth.host, Lack);
    var data := checkedGet(API_PATH, page, Some(CreateAuthHeader(auth.cookie)));
    if data.Err? {
      return Fail(data.error);
    }
    var doc := data.value.document;
    if !PageReadable(doc) {
      return Panic;
    }
    var summary := SummaryTexts(Select(First(doc, SUMMARIZE_TABLE_SELECT).value, SUMMARIZE_RECORD_SELECT));
    var up, down := TermLists(summary);
    var record := RecordList(Select(First(doc, TABLE_SELECT).value, RECORD_SELECT));
    r := Done(Envelope(API_MESSAGE, LackCollect(record, LackStatus(termDown := down, termUp := up))));
  }
}
