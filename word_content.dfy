/**
 * services/word_service.py: the text of a Word document and the counts in
 * its summary. The document is abstract: paragraphs (text and runs) and
 * tables (rows of cell texts); `failed` stands for an exception raised
 * while the library reads the document.
 */
module WordContent {

  import opened Wrappers
  import opened Strings

  datatype Paragraph = Paragraph(text: string, runs: seq<string>)

  /** A table: its rows of cell texts and its column count. */
  datatype Table = Table(rows: seq<seq<string>>, columns: nat)

  datatype Document = Document(paragraphs: seq<Paragraph>, tables: seq<Table>)

  const CellSeparator: string := " | "
  const LineBreak: string := "\n"
  const BlockSeparator: string := "\n\n"

  // ---------------------------------------------------------------------
  // extract_content, as functions
  // ---------------------------------------------------------------------

  /** The stripped texts that are not empty, in order. */
  function Stripped(texts: seq<string>): seq<string>
  {
    if texts == [] then []
    else
      var t := Strip(texts[|texts| - 1]);
      Stripped(texts[..|texts| - 1]) + (if t != [] then [t] else [])
  }

  /** One line per row that has a non-empty cell: its non-empty cells joined by " | ". */
  function RowLines(rows: seq<seq<string>>): seq<string>
  {
    if rows == [] then []
    else
      var cells := Stripped(rows[|rows| - 1]);
      RowLines(rows[..|rows| - 1]) + (if cells != [] then [Join(cells, CellSeparator)] else [])
  }

  /** One block per table with a surviving row: its lines joined by "\n". */
  function TableBlocks(tables: seq<Table>): seq<string>
  {
    if tables == [] then []
    else
      var lines := RowLines(tables[|tables| - 1].rows);
      TableBlocks(tables[..|tables| - 1]) + (if lines != [] then [Join(lines, LineBreak)] else [])
  }

  function ParagraphTexts(paragraphs: seq<Paragraph>): (r: seq<string>)
    ensures |r| == |paragraphs|
    ensures forall i :: 0 <= i < |paragraphs| ==> r[i] == paragraphs[i].text
  {
    seq(|paragraphs|, i requires 0 <= i < |paragraphs| => paragraphs[i].text)
  }

  /** Every paragraph block comes before every table block. */
  function Blocks(doc: Document): seq<string>
  {
    Stripped(ParagraphTexts(doc.paragraphs)) + TableBlocks(doc.tables)
  }

  /** `extract_content`: None for no document or a failure, else the blocks joined by blank lines. */
  function Content(document: Option<Document>, failed: bool): (r: Option<string>)
    ensures document.None? || failed <==> r.None?
  {
    if document.None? || failed then None else Some(Join(Blocks(document.value), BlockSeparator))
  }

  // ---------------------------------------------------------------------
  // Properties
  // ---------------------------------------------------------------------

  lemma {:induction false} StrippedBound(texts: seq<string>)
    ensures |Stripped(texts)| <= |texts|
  {
    if texts != [] {
      StrippedBound(texts[..|texts| - 1]);
    }
  }

  /** Each kept text is non-empty, already stripped, and the strip of some input text. */
  lemma {:induction false} StrippedSound(texts: seq<string>, x: string)
    requires x in Stripped(texts)
    ensures x != [] && Strip(x) == x
    ensures exists i :: 0 <= i < |texts| && Strip(texts[i]) == x
  {
    var init := texts[..|texts| - 1];
    var last := Strip(texts[|texts| - 1]);
    assert Stripped(texts) == Stripped(init) + (if last != [] then [last] else []);
    if x in Stripped(init) {
      StrippedSound(init, x);
      var i :| 0 <= i < |init| && Strip(init[i]) == x;
      assert texts[i] == init[i];
    } else {
      assert x == last;
      StripIdempotent(texts[|texts| - 1]);
      assert Strip(texts[|texts| - 1]) == x;
    }
  }

  /** No non-blank input text is dropped. */
  lemma {:induction false} StrippedComplete(texts: seq<string>, i: int)
    requires 0 <= i < |texts| && Strip(texts[i]) != []
    ensures Strip(texts[i]) in Stripped(texts)
  {
    var init := texts[..|texts| - 1];
    StrippedStep(texts);
    if i < |init| {
      assert texts[i] == init[i];
      StrippedComplete(init, i);
    }
  }

  /** One more text keeps what was kept and adds its stripped form when that is not empty. */
  lemma StrippedStep(texts: seq<string>)
    requires texts != []
    ensures forall x :: x in Stripped(texts[..|texts| - 1]) ==> x in Stripped(texts)
    ensures Strip(texts[|texts| - 1]) != [] ==> Strip(texts[|texts| - 1]) in Stripped(texts)
  {
  }

  /**
   * The kept texts are exactly the non-empty stripped texts: nothing else
   * is kept, nothing non-blank is dropped, and there are at most as many.
   */
  lemma StrippedExactly(texts: seq<string>)
    ensures |Stripped(texts)| <= |texts|
    ensures forall x :: x in Stripped(texts) ==> x != [] && Strip(x) == x && exists i :: 0 <= i < |texts| && Strip(texts[i]) == x
    ensures forall i :: 0 <= i < |texts| && Strip(texts[i]) != [] ==> Strip(texts[i]) in Stripped(texts)
  {
    StrippedBound(texts);
    forall x | x in Stripped(texts)
      ensures x != [] && Strip(x) == x && exists i :: 0 <= i < |texts| && Strip(texts[i]) == x
    {
      StrippedSound(texts, x);
    }
    forall i | 0 <= i < |texts| && Strip(texts[i]) != []
      ensures Strip(texts[i]) in Stripped(texts)
    {
      StrippedComplete(texts, i);
    }
  }

  /** Nothing is kept exactly when every text is blank. */
  lemma {:induction false} StrippedEmptyIffBlank(texts: seq<string>)
    ensures Stripped(texts) == [] <==> forall i :: 0 <= i < |texts| ==> Blank(texts[i])
  {
    if texts != [] {
      var init := texts[..|texts| - 1];
      StrippedEmptyIffBlank(init);
      StripEmptyIffBlank(texts[|texts| - 1]);
      if Stripped(texts) == [] {
        forall i | 0 <= i < |texts| ensures Blank(texts[i]) {
          if i < |init| {
            assert texts[i] == init[i];
          }
        }
      }
    }
  }

  /** A table whose cells are all blank contributes no line. */
  lemma {:induction false} BlankRowsVanish(rows: seq<seq<string>>)
    requires forall r, c :: 0 <= r < |rows| && 0 <= c < |rows[r]| ==> Blank(rows[r][c])
    ensures RowLines(rows) == []
  {
    if rows != [] {
      BlankRowsVanish(rows[..|rows| - 1]);
      StrippedEmptyIffBlank(rows[|rows| - 1]);
    }
  }

  /** The surviving rows are at most the rows, and each surviving line joins at least one non-empty cell. */
  lemma {:induction false} RowLinesBounded(rows: seq<seq<string>>)
    ensures |RowLines(rows)| <= |rows|
    ensures forall x :: x in RowLines(rows) ==> x != []
  {
    if rows != [] {
      var init := rows[..|rows| - 1];
      RowLinesBounded(init);
      var cells := Stripped(rows[|rows| - 1]);
      var tail := if cells != [] then [Join(cells, CellSeparator)] else [];
      assert RowLines(rows) == RowLines(init) + tail;
      if cells != [] {
        StrippedSound(rows[|rows| - 1], cells[0]);
        JoinNonEmpty(cells, CellSeparator);
      }
    }
  }

  /** Joining parts whose first part is non-empty gives a non-empty string. */
  lemma JoinNonEmpty(parts: seq<string>, sep: string)
    requires |parts| > 0 && parts[0] != []
    ensures Join(parts, sep) != []
  {
    assert Join(parts, sep)[..|parts[0]|] == parts[0];
  }

  // ---------------------------------------------------------------------
  // extract_content, as the loops it is
  // ---------------------------------------------------------------------

  /** The loop that keeps the stripped, non-empty texts. */
  method StripAll(texts: seq<string>) returns (kept: seq<string>)
    ensures kept == Stripped(texts)
  {
    kept := [];
    var i := 0;
    while i < |texts|
      invariant 0 <= i <= |texts|
      invariant kept == Stripped(texts[..i])
    {
      assert texts[..i + 1][..i] == texts[..i];
      var t := Strip(texts[i]);
      if t != [] {
        kept := kept + [t];
      }
      i := i + 1;
    }
    assert texts[..i] == texts;
  }

  /** The rows loop of one table. */
  method TableLines(table: Table) returns (lines: seq<string>)
    ensures lines == RowLines(table.rows)
  {
    lines := [];
    var i := 0;
    while i < |table.rows|
      invariant 0 <= i <= |table.rows|
      invariant lines == RowLines(table.rows[..i])
    {
      assert table.rows[..i + 1][..i] == table.rows[..i];
      var cells := StripAll(table.rows[i]);
      if cells != [] {
        lines := lines + [Join(cells, CellSeparator)];
      }
      i := i + 1;
    }
    assert table.rows[..i] == table.rows;
  }

  /** `extract_content`. */
  method ExtractContent(document: Option<Document>, failed: bool) returns (r: Option<string>)
    ensures r == Content(document, failed)
  {
    if document.None? || failed {
      return None;
    }
    var doc := document.value;
    var content := StripAll(ParagraphTexts(doc.paragraphs));
    var paragraphBlocks := content;
    var j := 0;
    while j < |doc.tables|
      invariant 0 <= j <= |doc.tables|
      invariant content == paragraphBlocks + TableBlocks(doc.tables[..j])
    {
      assert doc.tables[..j + 1][..j] == doc.tables[..j];
      var lines := TableLines(doc.tables[j]);
      if lines != [] {
        content := content + [Join(lines, LineBreak)];
      }
      j := j + 1;
    }
    assert doc.tables[..j] == doc.tables;
    return Some(Join(content, BlockSeparator));
  }

  /** A document with only blank paragraphs and blank cells has the empty string as content, not None. */
  lemma BlankDocumentIsEmpty(doc: Document)
    requires forall i :: 0 <= i < |doc.paragraphs| ==> Blank(doc.paragraphs[i].text)
    requires forall t, r, c :: 0 <= t < |doc.tables| && 0 <= r < |doc.tables[t].rows| && 0 <= c < |doc.tables[t].rows[r]| ==>
      Blank(doc.tables[t].rows[r][c])
    ensures Content(Some(doc), false) == Some("")
  {
    StrippedEmptyIffBlank(ParagraphTexts(doc.paragraphs));
    BlankTablesVanish(doc.tables);
  }

  lemma {:induction false} BlankTablesVanish(tables: seq<Table>)
    requires forall t, r, c :: 0 <= t < |tables| && 0 <= r < |tables[t].rows| && 0 <= c < |tables[t].rows[r]| ==>
      Blank(tables[t].rows[r][c])
    ensures TableBlocks(tables) == []
  {
    if tables != [] {
      BlankTablesVanish(tables[..|tables| - 1]);
      BlankRowsVanish(tables[|tables| - 1].rows);
    }
  }

  // ---------------------------------------------------------------------
  // get_docx_summary: the counts
  // ---------------------------------------------------------------------

  datatype ParagraphInfo = ParagraphInfo(text: string, runs: seq<string>)
  datatype TableInfo = TableInfo(rows: nat, columns: nat)
  datatype Summary = Summary(paragraphsCount: nat, tablesCount: nat, paragraphsInfo: seq<ParagraphInfo>, tablesInfo: seq<TableInfo>)

  /** `get_docx_summary` without the style and core-property fields. */
  method DocxSummary(document: Option<Document>, failed: bool) returns (r: Option<Summary>)
    ensures r.None? <==> document.None? || failed
    ensures r.Some? ==> var doc := document.value;
      && r.value.paragraphsCount == |doc.paragraphs| && r.value.tablesCount == |doc.tables|
      && |r.value.paragraphsInfo| == |doc.paragraphs|
      && (forall i :: 0 <= i < |doc.paragraphs| ==>
            r.value.paragraphsInfo[i] == ParagraphInfo(doc.paragraphs[i].text, doc.paragraphs[i].runs))
      && |r.value.tablesInfo| == |doc.tables|
      && (forall i :: 0 <= i < |doc.tables| ==>
            r.value.tablesInfo[i] == TableInfo(|doc.tables[i].rows|, doc.tables[i].columns))
  {
    if document.None? || failed {
      return None;
    }
    var doc := document.value;
    var paragraphsInfo: seq<ParagraphInfo> := [];
    var i := 0;
    while i < |doc.paragraphs|
      invariant 0 <= i <= |doc.paragraphs|
      invariant |paragraphsInfo| == i
      invariant forall j :: 0 <= j < i ==> paragraphsInfo[j] == ParagraphInfo(doc.paragraphs[j].text, doc.paragraphs[j].runs)
    {
      var p := doc.paragraphs[i];
      var runs: seq<string> := [];
      var k := 0;
      while k < |p.runs|
        invariant 0 <= k <= |p.runs|
        invariant runs == p.runs[..k]
      {
        runs := runs + [p.runs[k]];
        k := k + 1;
      }
      assert runs == p.runs;
      paragraphsInfo := paragraphsInfo + [ParagraphInfo(p.text, runs)];
      i := i + 1;
    }
    var tablesInfo: seq<TableInfo> := [];
    var t := 0;
    while t < |doc.tables|
      invariant 0 <= t <= |doc.tables|
      invariant |tablesInfo| == t
      invariant forall j :: 0 <= j < t ==> tablesInfo[j] == TableInfo(|doc.tables[j].rows|, doc.tables[j].columns)
    {
      tablesInfo := tablesInfo + [TableInfo(|doc.tables[t].rows|, doc.tables[t].columns)];
      t := t + 1;
    }
    return Some(Summary(|doc.paragraphs|, |doc.tables|, paragraphsInfo, tablesInfo));
  }
}
