/**
 * One exam's scores: the score table of the portal's score page, the
 * subjects marked as failed, and the summary cells below the table.
 */
module GetScore {
  import opened Wrappers
  import opened Strings
  import opened Types
  import opened Http
  import opened Page
  import opened Utils

  const TABLE_SELECT: string := "table[id=Table1] tr"
  const TDS_SELECT: string := "td"
  const SPAN_SELECT: string := "span"
  const EXTRA_SELECT: string := "table.scoreTable-inline.padding0.spacing2.center tr td"

  const API_PATH: string := "/v1/getScoreInfo"
  const API_MESSAGE: string := "Get score info successful"

  /** The portal's "not yet open" notice. */
  const NOT_OPEN: string := "尚未開放"

  /** The full-width colon after each summary caption. */
  const FULL_WIDTH_COLON: string := "："

  /** The query parameters; `times` is accepted but not used. */
  datatype DataStruct = DataStruct(year: string, term: string, times: string, testID: string)

  // ---------------------------------------------------------------------
  // The score table

  /** The cells of a row. */
  function Cells(row: Element): seq<Element>
  {
    Select(row, TDS_SELECT)
  }

  /** A row is read when it has at least two cells. */
  predicate Kept(row: Element)
  {
    |Cells(row)| > 0 && |Cells(row)| > 1
  }

  /** A read row must have a third cell and a span in its second and third cells; otherwise the route panics. */
  predicate RowReadable(row: Element)
  {
    Kept(row) ==>
      && |Cells(row)| > 2
      && First(Cells(row)[1], SPAN_SELECT).Some?
      && First(Cells(row)[2], SPAN_SELECT).Some?
  }

  predicate RowsReadable(rows: seq<Element>)
  {
    forall i | 0 <= i < |rows| :: RowReadable(rows[i])
  }

  /** The subject of a row: its first cell's text without spaces. */
  function SubjectName(row: Element): (name: string)
    requires Kept(row)
    ensures ' ' !in name
  {
    RemoveChar(Cells(row)[0].rendered, ' ');
    Remove(Cells(row)[0].rendered, " ")
  }

  function ScoreSpan(row: Element): Element
    requires Kept(row) && RowReadable(row)
  {
    First(Cells(row)[1], SPAN_SELECT).value
  }

  function GpaSpan(row: Element): Element
    requires Kept(row) && RowReadable(row)
  {
    First(Cells(row)[2], SPAN_SELECT).value
  }

  /** The score entry of a row: the score span's number, 0 when it does not parse, as a byte. */
  function ScoreEntry(row: Element): (s: ScoreDataValue)
    requires Kept(row) && RowReadable(row)
    ensures s.score < 256
  {
    ScoreDataValue(SubjectName(row), AsU8(ConvertStringToU32(CompactText(ScoreSpan(row).rendered))))
  }

  /** The score is marked failed when its span's style mentions red. */
  predicate ScoreFailed(row: Element)
    requires Kept(row) && RowReadable(row)
  {
    Attr(ScoreSpan(row), "style").Some? && Contains(Attr(ScoreSpan(row), "style").value, "red")
  }

  /** The failure marks of a row: the score's before the grade point's. */
  function RowUnpass(row: Element): (u: seq<ScoreUnpass>)
    requires Kept(row) && RowReadable(row)
    ensures |u| <= 2
    ensures forall i | 0 <= i < |u| :: u[i].name == SubjectName(row)
  {
    (if ScoreFailed(row) then [ScoreUnpass(SubjectName(row), "score")] else [])
    + (if HasClass(GpaSpan(row), "unpass") then [ScoreUnpass(SubjectName(row), "gpa")] else [])
  }

  /** The score entries of the read rows, in row order. */
  function Scores(rows: seq<Element>): seq<ScoreDataValue>
    requires RowsReadable(rows)
    decreases |rows|
  {
    if rows == [] then []
    else
      var last := rows[|rows| - 1];
      Scores(rows[..|rows| - 1]) + (if Kept(last) then [ScoreEntry(last)] else [])
  }

  /** The failure marks of the read rows, in row order. */
  function Unpasses(rows: seq<Element>): seq<ScoreUnpass>
    requires RowsReadable(rows)
    decreases |rows|
  {
    if rows == [] then []
    else
      var last := rows[|rows| - 1];
      Unpasses(rows[..|rows| - 1]) + (if Kept(last) then RowUnpass(last) else [])
  }

  /** The number of rows that are read. */
  function KeptCount(rows: seq<Element>): nat
    decreases |rows|
  {
    if rows == [] then 0
    else KeptCount(rows[..|rows| - 1]) + (if Kept(rows[|rows| - 1]) then 1 else 0)
  }

  lemma ScoresStep(rows: seq<Element>, k: nat)
    requires k < |rows| && RowsReadable(rows)
    ensures RowsReadable(rows[..k]) && RowsReadable(rows[..k + 1])
    ensures Scores(rows[..k + 1]) == Scores(rows[..k]) + (if Kept(rows[k]) then [ScoreEntry(rows[k])] else [])
    ensures Unpasses(rows[..k + 1]) == Unpasses(rows[..k]) + (if Kept(rows[k]) then RowUnpass(rows[k]) else [])
  {
    assert rows[..k + 1][..k] == rows[..k];
    assert rows[..k + 1][k] == rows[k];
  }

  /**
   * The loop over the table rows: a row with at least two cells adds its
   * score entry and then its failure marks.
   */
  method ScoreLists(rows: seq<Element>) returns (scoreList: seq<ScoreDataValue>, unpassList: seq<ScoreUnpass>)
    requires RowsReadable(rows)
    ensures scoreList == Scores(rows) && unpassList == Unpasses(rows)
  {
    scoreList := [];
    unpassList := [];
    for k := 0 to |rows|
      invariant RowsReadable(rows[..k])
      invariant scoreList == Scores(rows[..k]) && unpassList == Unpasses(rows[..k])
    {
      ScoresStep(rows, k);
      var list := Cells(rows[k]);
      if |list| > 0 && |list| > 1 {
        assert RowReadable(rows[k]);
        var scoreName := Remove(list[0].rendered, " ");
        var elementScore := First(list[1], SPAN_SELECT).value;
        var elementGpa := First(list[2], SPAN_SELECT).value;
        var scoreNumb := AsU8(ConvertStringToU32(CompactText(elementScore.rendered)));
        scoreList := scoreList + [ScoreDataValue(scoreName, scoreNumb)];
        var marks: seq<ScoreUnpass> := [];
        match Attr(elementScore, "style") {
          case Some(style) =>
            if Contains(style, "red") {
              marks := marks + [ScoreUnpass(scoreName, "score")];
            }
          case None =>
        }
        if HasClass(elementGpa, "unpass") {
          marks := marks + [ScoreUnpass(scoreName, "gpa")];
        }
        assert marks == RowUnpass(rows[k]);
        unpassList := unpassList + marks;
      }
    }
    assert rows[..|rows|] == rows;
  }

  /** One score entry per read row; every score fits a byte. */
  lemma {:induction false} ScoresCount(rows: seq<Element>)
    requires RowsReadable(rows)
    ensures |Scores(rows)| == KeptCount(rows)
    ensures forall i | 0 <= i < |Scores(rows)| :: Scores(rows)[i].score < 256
    decreases |rows|
  {
    if rows != [] {
      ScoresStep(rows, |rows| - 1);
      assert rows[..|rows| - 1 + 1] == rows;
      ScoresCount(rows[..|rows| - 1]);
    }
  }

  /** The subjects that have a score entry. */
  function Names(scores: seq<ScoreDataValue>): set<string>
  {
    set s | s in scores :: s.name
  }

  /** At most two failure marks per score entry. */
  lemma {:induction false} UnpassBound(rows: seq<Element>)
    requires RowsReadable(rows)
    ensures |Unpasses(rows)| <= 2 * |Scores(rows)|
    decreases |rows|
  {
    if rows != [] {
      ScoresStep(rows, |rows| - 1);
      assert rows[..|rows| - 1 + 1] == rows;
      UnpassBound(rows[..|rows| - 1]);
    }
  }

  /** Every failure mark names a subject that has a score entry. */
  lemma {:induction false} UnpassNamesScored(rows: seq<Element>)
    requires RowsReadable(rows)
    ensures forall u | u in Unpasses(rows) :: u.name in Names(Scores(rows))
    decreases |rows|
  {
    if rows != [] {
      var front := rows[..|rows| - 1];
      var last := rows[|rows| - 1];
      ScoresStep(rows, |rows| - 1);
      assert rows[..|rows| - 1 + 1] == rows;
      UnpassNamesScored(front);
      assert Names(Scores(front)) <= Names(Scores(rows));
      if Kept(last) {
        assert ScoreEntry(last) in Scores(rows);
        forall u | u in RowUnpass(last) ensures u.name in Names(Scores(rows)) {
          var i :| 0 <= i < |RowUnpass(last)| && RowUnpass(last)[i] == u;
        }
      }
    }
  }

  // ---------------------------------------------------------------------
  // The summary cells

  /** A cell of class "score" needs a cell before it; the first cell must not be one, or the route panics. */
  predicate ExtrasReadable(cells: seq<Element>)
  {
    |cells| > 0 ==> !HasClass(cells[0], "score")
  }

  /** The summary entry for the score cell at `i`: the caption before it without its colon, and its compacted text. */
  function ExtraEntry(cells: seq<Element>, i: nat): (e: ScoreExtraData)
    requires 1 <= i < |cells|
    ensures ' ' !in e.value && '\n' !in e.value
  {
    ScoreExtraData(Remove(cells[i - 1].rendered, FULL_WIDTH_COLON), CompactText(cells[i].rendered))
  }

  /** The summary entries of the first `n` cells. */
  function Extras(cells: seq<Element>, n: nat): seq<ScoreExtraData>
    requires n <= |cells| && ExtrasReadable(cells)
  {
    if n == 0 then []
    else Extras(cells, n - 1) + (if HasClass(cells[n - 1], "score") then [ExtraEntry(cells, n - 1)] else [])
  }

  /** The number of score cells among the first `n`. */
  function ScoreCellCount(cells: seq<Element>, n: nat): nat
    requires n <= |cells|
  {
    if n == 0 then 0 else ScoreCellCount(cells, n - 1) + (if HasClass(cells[n - 1], "score") then 1 else 0)
  }

  /** The indexed loop over the summary cells. */
  method ExtraList(cells: seq<Element>) returns (extraList: seq<ScoreExtraData>)
    requires ExtrasReadable(cells)
    ensures extraList == Extras(cells, |cells|)
  {
    extraList := [];
    for i := 0 to |cells|
      invariant extraList == Extras(cells, i)
    {
      if HasClass(cells[i], "score") {
        extraList := extraList + [ScoreExtraData(Remove(cells[i - 1].rendered, FULL_WIDTH_COLON), CompactText(cells[i].rendered))];
      }
    }
  }

  /** One summary entry per score cell, each caption without the full-width colon. */
  lemma {:induction false} ExtrasCount(cells: seq<Element>, n: nat)
    requires n <= |cells| && ExtrasReadable(cells)
    ensures |Extras(cells, n)| == ScoreCellCount(cells, n)
    ensures forall i | 0 <= i < |Extras(cells, n)| :: '：' !in Extras(cells, n)[i].kind
  {
    if n > 0 {
      ExtrasCount(cells, n - 1);
      if HasClass(cells[n - 1], "score") {
        RemoveChar(cells[n - 2].rendered, '：');
      }
    }
  }

  // ---------------------------------------------------------------------
  // The route

  /** The page must have a table row to drop, and its rows and summary cells must be readable. */
  predicate PageReadable(document: Element)
  {
    && |Select(document, TABLE_SELECT)| > 0
    && RowsReadable(Select(document, TABLE_SELECT)[1..])
    && ExtrasReadable(Select(document, EXTRA_SELECT))
  }

  /**
   * The route: missing parameters are 400; the score page is fetched at the
   * score path with the year, term and test id filled in; a page saying
   * the scores are not yet open is 404; otherwise the header row is
   * dropped and the lists are read. A page that cannot be read panics.
   */
  method Api(auth: AuthToken, params: Option<DataStruct>, checkedGet: CheckedGet, now: nat)
    returns (r: Reply<Envelope<ScoreDataCollect>>)
    ensures params.None? ==>
      r == Fail(ErrorMessage(API_PATH, BAD_REQUEST, "Missing one or more arguments", Some("Arguments"), now))
    ensures params.Some? ==>
      var p := params.value;
      var url := CombinePath(auth.host, Substitute(Path(Score),
        [ReplaceString("$year$", p.year), ReplaceString("$term$", p.term), ReplaceString("$testid$", p.testID)]));
      var fetched := checkedGet(API_PATH, url, Some(CreateAuthHeader(auth.cookie)));
      if fetched.Err? then r == Fail(fetched.error)
      else if Contains(fetched.value.document.outer, NOT_OPEN) then
        r == Fail(ErrorMessage(API_PATH, NOT_FOUND, "Cannot find the score data", None, now))
      else if !PageReadable(fetched.value.document) then r == Panic
      else
        var doc := fetched.value.document;
        var rows := Select(doc, TABLE_SELECT)[1..];
        var cells := Select(doc, EXTRA_SELECT);
        r == Done(Envelope(API_MESSAGE, ScoreDataCollect(Scores(rows), Extras(cells, |cells|), Unpasses(rows))))
  {
    if params.None? {
      return Fail(ErrorMessage(API_PATH, BAD_REQUEST, "Missing one or more arguments", Some("Arguments"), now));
    }
    var p := params.value;
    var path := Replace(Score, [ReplaceString("$year$", p.year), ReplaceString("$term$", p.term), ReplaceString("$testid$", p.testID)]);
    var fetched := checkedGet(API_PATH, CombinePath(auth.host, path), Some(CreateAuthHeader(auth.cookie)));
    if fetched.Err? {
      return Fail(fetched.error);
    }
    var doc := fetched.value.document;
    if Contains(doc.outer, NOT_OPEN) {
      return Fail(ErrorMessage(API_PATH, NOT_FOUND, "Cannot find the score data", None, now));
    }
    var tableData := Select(doc, TABLE_SELECT);
    if |tableData| == 0 || !RowsReadable(tableData[1..]) || !ExtrasReadable(Select(doc, EXTRA_SELECT)) {
      return Panic;
    }
    tableData := tableData[1..];
    var scoreList, unpassList := ScoreLists(tableData);
    var extraList := ExtraList(Select(doc, EXTRA_SELECT));
    r := Done(Envelope(API_MESSAGE, ScoreDataCollect(scoreList, extraList, unpassList)));
  }

  /** For parameters without a dollar sign in year or term, the score page asked for is the filled-in score path. */
  lemma ScoreUrl(auth: AuthToken, p: DataStruct)
    requires '$' !in p.year && '$' !in p.term
    ensures CombinePath(auth.host, Substitute(Path(Score),
        [ReplaceString("$year$", p.year), ReplaceString("$term$", p.term), ReplaceString("$testid$", p.testID)]))
      == auth.host + SCORE_HEAD + p.year + SCORE_TERM + p.term + SCORE_NUMBER + p.testID + SCORE_TAIL
  {
    ScorePath(p.year, p.term, p.testID);
  }
}
