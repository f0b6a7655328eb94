/**
  The Markdown pipe-table readers of the report scripts. `parse_markdown_table` comes in a
  strict form (tests/hw5/app.py: table lines must start and end with '|', at least one data
  row) and a lenient form (qreview_ui.py and topdftest.py: table lines start with '|', an
  empty table is still a table). `generate_pdf` first keeps the lines of a reply whose
  stripped form starts with '|' and parses only those.

  This is a loose reading of a pipe table, not the GitHub Flavored Markdown extension:
  escaped pipes and the alignment row are not interpreted, the second table line is
  skipped whatever it holds, and rows of the wrong width are dropped.
 */
module MarkdownTables {
  import opened Wrappers
  import opened Strings
  import opened Chunking

  /** A parsed table, as the DataFrame `pd.DataFrame(data, columns=headers)`. */
  datatype Table = Table(headers: seq<string>, rows: seq<seq<string>>)

  // ---------------------------------------------------------------------------
  // Lines and cells

  predicate NonBlank(line: string) {
    Strip(line) != ""
  }

  /** A table line of the lenient readers: `line.startswith("|")`. */
  predicate PipeLine(line: string) {
    StartsWith(line, "|")
  }

  /** A table line of the strict reader: it starts and ends with '|'. */
  predicate PipeRow(line: string) {
    StartsWith(line, "|") && EndsWith(line, "|")
  }

  /** The lines `generate_pdf` keeps: `line.strip().startswith("|")`. */
  predicate TrimmedPipeLine(line: string) {
    StartsWith(Strip(line), "|")
  }

  /** `[line.strip() for line in text.strip().splitlines() if line.strip()]`. */
  function NonBlankLines(text: string): seq<string> {
    MapSeq(Strip, Filter(NonBlank, SplitLines(Strip(text))))
  }

  /** `[c.strip() for c in line.strip("|").split("|")]`. */
  function Cells(line: string): seq<string> {
    MapSeq(Strip, Split(StripChar(line, '|'), "|"))
  }

  /** A row keeps its place when it has as many cells as there are headers. */
  function HasWidth(n: nat): seq<string> -> bool {
    r => |r| == n
  }

  /** The data rows the row loop appends: the cells of each line, when they number `n`. */
  function KeptRows(n: nat, lines: seq<string>): seq<seq<string>> {
    Filter(HasWidth(n), MapSeq(Cells, lines))
  }

  /** The strict reader's table lines. */
  function StrictLines(text: string): seq<string> {
    Filter(PipeRow, NonBlankLines(text))
  }

  /** The lenient readers' table lines. */
  function LenientLines(text: string): seq<string> {
    Filter(PipeLine, NonBlankLines(text))
  }

  /** tests/hw5/app.py's reading of its table lines. */
  function StrictOf(tl: seq<string>): Option<Table> {
    if |tl| < 3 then None
    else
      var headers := Cells(tl[0]);
      var data := KeptRows(|headers|, tl[2..]);
      if |data| == 0 then None else Some(Table(headers, data))
  }

  /** qreview_ui.py's and topdftest.py's reading of their table lines. */
  function LenientOf(tl: seq<string>): Option<Table> {
    if |tl| == 0 then None
    else
      var headers := Cells(tl[0]);
      Some(Table(headers, KeptRows(|headers|, tl[Min(2, |tl|)..])))
  }

  function StrictTable(text: string): Option<Table> {
    StrictOf(StrictLines(text))
  }

  function LenientTable(text: string): Option<Table> {
    LenientOf(LenientLines(text))
  }

  // ---------------------------------------------------------------------------
  // The parsers as written: comprehensions, then a loop appending rows

  /** The loop `for line in table_lines[2:]: row = ...; if len(row) == len(headers): data.append(row)`. */
  method KeepRows(width: nat, lines: seq<string>) returns (data: seq<seq<string>>)
    ensures data == KeptRows(width, lines)
  {
    data := [];
    for i := 0 to |lines|
      invariant data == KeptRows(width, lines[..i])
    {
      var row := Cells(lines[i]);
      TakeSnoc(lines, i);
      MapSeqSnoc(Cells, lines[..i], lines[i]);
      FilterSnoc(HasWidth(width), MapSeq(Cells, lines[..i]), row);
      if |row| == width {
        data := data + [row];
      }
    }
    assert lines[..|lines|] == lines;
  }

  /** `parse_markdown_table` of tests/hw5/app.py. */
  method ParseMarkdownTableStrict(text: string) returns (t: Option<Table>)
    ensures t == StrictTable(text)
  {
    var tableLines := StrictLines(text);
    if |tableLines| < 3 {
      return None;
    }
    var headers := Cells(tableLines[0]);
    var data := KeepRows(|headers|, tableLines[2..]);
    if |data| == 0 {
      return None;
    }
    return Some(Table(headers, data));
  }

  /** `parse_markdown_table` of qreview_ui.py and of topdftest.py (the two are the same). */
  method ParseMarkdownTableLenient(text: string) returns (t: Option<Table>)
    ensures t == LenientTable(text)
  {
    var tableLines := LenientLines(text);
    if |tableLines| == 0 {
      return None;
    }
    var headers := Cells(tableLines[0]);
    var data := KeepRows(|headers|, tableLines[Min(2, |tableLines|)..]);
    return Some(Table(headers, data));
  }

  // ---------------------------------------------------------------------------
  // What the parsers promise

  /** Every cell is stripped and holds no '|', and a line always has at least one cell. */
  lemma CellsClean(line: string)
    ensures |Cells(line)| >= 1
    ensures forall i :: 0 <= i < |Cells(line)| ==> '|' !in Cells(line)[i] && Strip(Cells(line)[i]) == Cells(line)[i]
  {
    var parts := Split(StripChar(line, '|'), "|");
    forall i | 0 <= i < |parts| ensures '|' !in Strip(parts[i]) && Strip(Strip(parts[i])) == Strip(parts[i]) {
      ContainsChar(parts[i], '|');
      if '|' in Strip(parts[i]) {
        StripKeeps(parts[i], '|');
      }
      TrimIdempotent(parts[i], IsSpace);
    }
  }

  /**
    The kept rows have width `n`; they are exactly the cell lists of width `n` among the
    lines; and they keep the order of the lines.
   */
  lemma KeptRowsSpec(n: nat, lines: seq<string>, r: seq<string>)
    ensures forall k :: 0 <= k < |KeptRows(n, lines)| ==> |KeptRows(n, lines)[k]| == n
    ensures r in KeptRows(n, lines) <==> |r| == n && exists j :: 0 <= j < |lines| && Cells(lines[j]) == r
  {
    var cells := MapSeq(Cells, lines);
    FilterMember(HasWidth(n), cells, r);
    if r in cells {
      var j :| 0 <= j < |cells| && cells[j] == r;
      assert Cells(lines[j]) == r;
    }
    if exists j :: 0 <= j < |lines| && Cells(lines[j]) == r {
      var j :| 0 <= j < |lines| && Cells(lines[j]) == r;
      assert cells[j] == r;
    }
  }

  lemma KeptRowsAppend(n: nat, a: seq<string>, b: seq<string>)
    ensures KeptRows(n, a + b) == KeptRows(n, a) + KeptRows(n, b)
  {
    assert MapSeq(Cells, a + b) == MapSeq(Cells, a) + MapSeq(Cells, b);
    FilterAppend(HasWidth(n), MapSeq(Cells, a), MapSeq(Cells, b));
  }

  /** No row is kept exactly when no line has the header width. */
  lemma KeptRowsEmpty(n: nat, lines: seq<string>)
    ensures |KeptRows(n, lines)| == 0 <==> forall j :: 0 <= j < |lines| ==> |Cells(lines[j])| != n
  {
    if j :| 0 <= j < |lines| && |Cells(lines[j])| == n {
      KeptRowsSpec(n, lines, Cells(lines[j]));
    }
    if |KeptRows(n, lines)| > 0 {
      KeptRowsSpec(n, lines, KeptRows(n, lines)[0]);
    }
  }

  /**
    The strict reader fails exactly when there are fewer than three table lines or when no
    line after the second has as many cells as the first; otherwise its headers come from
    the first table line and it keeps at least one row, each as wide as the headers.
   */
  lemma StrictOfShape(tl: seq<string>)
    ensures StrictOf(tl).None? <==>
      |tl| < 3 || forall j :: 2 <= j < |tl| ==> |Cells(tl[j])| != |Cells(tl[0])|
    ensures StrictOf(tl).Some? ==>
      StrictOf(tl).value.headers == Cells(tl[0]) && |StrictOf(tl).value.rows| >= 1
      && forall k :: 0 <= k < |StrictOf(tl).value.rows| ==> |StrictOf(tl).value.rows[k]| == |StrictOf(tl).value.headers|
  {
    if |tl| >= 3 {
      var n := |Cells(tl[0])|;
      var rest := tl[2..];
      KeptRowsEmpty(n, rest);
      KeptRowsSpec(n, rest, []);
      assert (forall j :: 0 <= j < |rest| ==> |Cells(rest[j])| != n)
        <==> (forall j :: 2 <= j < |tl| ==> |Cells(tl[j])| != n) by {
        forall j | 2 <= j < |tl| ensures rest[j - 2] == tl[j] {
        }
      }
    }
  }

  /**
    The lenient reader fails only when there is no table line; otherwise its headers come
    from the first one, every kept row is as wide as the headers, and with fewer than
    three table lines no row is kept.
   */
  lemma LenientOfShape(tl: seq<string>)
    ensures LenientOf(tl).None? <==> |tl| == 0
    ensures LenientOf(tl).Some? ==>
      LenientOf(tl).value.headers == Cells(tl[0])
      && (forall k :: 0 <= k < |LenientOf(tl).value.rows| ==> |LenientOf(tl).value.rows[k]| == |LenientOf(tl).value.headers|)
      && (|tl| < 3 ==> LenientOf(tl).value.rows == [])
  {
    if |tl| > 0 {
      KeptRowsSpec(|Cells(tl[0])|, tl[Min(2, |tl|)..], []);
    }
  }

  /** Filtering, mapping and filtering again leaves nothing exactly when no element maps to one that passes. */
  lemma FilterMapFilterEmpty<A, B>(q: A -> bool, f: A -> B, p: B -> bool, raw: seq<A>)
    requires forall j :: 0 <= j < |raw| && p(f(raw[j])) ==> q(raw[j])
    ensures |Filter(p, MapSeq(f, Filter(q, raw)))| == 0 <==> forall j :: 0 <= j < |raw| ==> !p(f(raw[j]))
  {
    var kept := Filter(q, raw);
    var mapped := MapSeq(f, kept);
    if j :| 0 <= j < |raw| && p(f(raw[j])) {
      FilterMember(q, raw, raw[j]);
      var i :| 0 <= i < |kept| && kept[i] == raw[j];
      FilterMember(p, mapped, mapped[i]);
    }
    if |Filter(p, mapped)| > 0 {
      var y := Filter(p, mapped)[0];
      var i :| 0 <= i < |mapped| && mapped[i] == y;
      var j :| 0 <= j < |raw| && raw[j] == kept[i];
    }
  }

  lemma PipeLineNonBlank()
    ensures forall s :: PipeLine(Strip(s)) ==> NonBlank(s)
  {
  }

  /** No line of `raw` starts with '|' once stripped. */
  predicate NoPipeLine(raw: seq<string>) {
    forall j :: 0 <= j < |raw| ==> !TrimmedPipeLine(raw[j])
  }

  /** Among raw lines, no kept stripped line starts with '|' exactly when no stripped raw line does. */
  lemma PipeLinesNone(raw: seq<string>)
    ensures |Filter(PipeLine, MapSeq(Strip, Filter(NonBlank, raw)))| == 0 <==> NoPipeLine(raw)
  {
    PipeLineNonBlank();
    FilterMapFilterEmpty(NonBlank, Strip, PipeLine, raw);
  }

  /** The lenient reader fails exactly when no non-blank stripped line of the text starts with '|'. */
  lemma LenientTableNone(text: string)
    ensures LenientTable(text).None? <==> NoPipeLine(SplitLines(Strip(text)))
  {
    var raw := SplitLines(Strip(text));
    var tl := LenientLines(text);
    assert tl == Filter(PipeLine, MapSeq(Strip, Filter(NonBlank, raw)));
    assert LenientTable(text).None? <==> |tl| == 0;
    PipeLinesNone(raw);
  }

  // ---------------------------------------------------------------------------
  // A rendered table reads back as itself

  /** `| a | b |` written without padding. */
  function RowLine(cells: seq<string>): string {
    "|" + Join("|", cells) + "|"
  }

  /** A header line, the separator line `sep`, then one line per row. */
  function TableLines(t: Table, sep: string): seq<string> {
    [RowLine(t.headers), sep] + MapSeq(RowLine, t.rows)
  }

  function TableText(t: Table, sep: string): string {
    Join("\n", TableLines(t, sep))
  }

  /** A cell the reader can carry: stripped, on one line, without '|'. */
  predicate CleanCell(c: string) {
    Strip(c) == c && NoLineBreak(c) && '|' !in c
  }

  /** A row whose outer cells are not empty (Python's `strip("|")` would eat their pipes). */
  predicate CleanRow(cells: seq<string>) {
    |cells| >= 1 && cells[0] != "" && cells[|cells| - 1] != ""
    && forall i :: 0 <= i < |cells| ==> CleanCell(cells[i])
  }

  predicate SeparatorLine(sep: string) {
    |sep| >= 1 && sep[0] == '|' && sep[|sep| - 1] == '|' && NoLineBreak(sep)
  }

  predicate Renderable(t: Table) {
    CleanRow(t.headers) && forall k :: 0 <= k < |t.rows| ==> CleanRow(t.rows[k]) && |t.rows[k]| == |t.headers|
  }

  /** Splitting a rendered row gives back its cells. */
  lemma CellsOfRow(cells: seq<string>)
    requires CleanRow(cells)
    ensures Cells(RowLine(cells)) == cells
  {
    var j := Join("|", cells);
    JoinEndChars("|", cells);
    assert AllDropped("|", SameChar('|'));
    TrimOf("|", j, "|", SameChar('|'));
    forall i | 0 <= i < |cells| ensures Delimits(cells[i], "|") {
      ContainsChar(cells[i], '|');
      DelimitsChar(cells[i], '|');
    }
    JoinSplit("|", cells);
  }

  /** A rendered row is one non-blank line that starts and ends with '|' and strips to itself. */
  lemma RowLineShape(cells: seq<string>)
    requires CleanRow(cells)
    ensures NoLineBreak(RowLine(cells)) && Strip(RowLine(cells)) == RowLine(cells)
    ensures PipeRow(RowLine(cells))
  {
    var s := RowLine(cells);
    JoinNoLineBreak("|", cells);
    NoLineBreakAppend("|", Join("|", cells));
    NoLineBreakAppend("|" + Join("|", cells), "|");
    TrimBare(s, IsSpace);
    assert s[|s| - 1..] == "|";
  }

  /** Lines joined by "\n", none of them blank, come back as their stripped selves. */
  lemma NonBlankLinesOfJoin(ls: seq<string>)
    requires |ls| >= 1
    requires forall i :: 0 <= i < |ls| ==> NoLineBreak(ls[i]) && NonBlank(ls[i])
    ensures NonBlankLines(Join("\n", ls)) == MapSeq(Strip, ls)
  {
    var trimmed := StripJoinLines(ls);
    MapFilterAll(NonBlank, Strip, trimmed, ls);
  }

  lemma MapFilterAll<A, B>(p: A -> bool, f: A -> B, xs: seq<A>, ys: seq<A>)
    requires |xs| == |ys|
    requires forall i :: 0 <= i < |xs| ==> p(xs[i]) && f(xs[i]) == f(ys[i])
    ensures MapSeq(f, Filter(p, xs)) == MapSeq(f, ys)
  {
    FilterAll(p, xs);
  }

  /** Every line of a rendered table is a non-blank line that starts and ends with '|' and strips to itself. */
  lemma TableLinesShape(t: Table, sep: string)
    requires Renderable(t) && SeparatorLine(sep)
    ensures forall i :: 0 <= i < |TableLines(t, sep)| ==>
      NoLineBreak(TableLines(t, sep)[i]) && Strip(TableLines(t, sep)[i]) == TableLines(t, sep)[i]
      && PipeRow(TableLines(t, sep)[i]) && NonBlank(TableLines(t, sep)[i])
  {
    var ls := TableLines(t, sep);
    TrimBare(sep, IsSpace);
    assert sep[|sep| - 1..] == "|";
    forall i | 0 <= i < |ls| ensures NoLineBreak(ls[i]) && Strip(ls[i]) == ls[i] && PipeRow(ls[i]) {
      if i == 0 {
        RowLineShape(t.headers);
      } else if i >= 2 {
        assert ls[i] == RowLine(t.rows[i - 2]);
        RowLineShape(t.rows[i - 2]);
      }
    }
  }

  lemma MapSeqFixed<A>(f: A -> A, xs: seq<A>)
    requires forall i :: 0 <= i < |xs| ==> f(xs[i]) == xs[i]
    ensures MapSeq(f, xs) == xs
  {
  }

  /** The non-blank lines of a rendered table are its lines. */
  lemma RenderedLines(t: Table, sep: string)
    requires Renderable(t) && SeparatorLine(sep)
    ensures NonBlankLines(TableText(t, sep)) == TableLines(t, sep)
  {
    var ls := TableLines(t, sep);
    TableLinesShape(t, sep);
    NonBlankLinesOfJoin(ls);
    MapSeqFixed(Strip, ls);
  }

  /**
    Reading a rendered table gives it back: the lenient reader always, the strict reader
    when the table has a row. Whatever the separator line holds, it is skipped.
   */
  lemma TableRoundTrip(t: Table, sep: string)
    requires Renderable(t) && SeparatorLine(sep)
    ensures LenientTable(TableText(t, sep)) == Some(t)
    ensures StrictTable(TableText(t, sep)) == if |t.rows| == 0 then None else Some(t)
  {
    var ls := TableLines(t, sep);
    RenderedLines(t, sep);
    TableLinesShape(t, sep);
    FilterAll(PipeLine, ls);
    FilterAll(PipeRow, ls);
    ReadRendered(t, sep);
  }

  /** Both readers give back the table from its rendered lines. */
  lemma ReadRendered(t: Table, sep: string)
    requires Renderable(t)
    ensures LenientOf(TableLines(t, sep)) == Some(t)
    ensures StrictOf(TableLines(t, sep)) == if |t.rows| == 0 then None else Some(t)
  {
    var ls := TableLines(t, sep);
    CellsOfRow(t.headers);
    assert ls[2..] == MapSeq(RowLine, t.rows);
    RowsRoundTrip(t);
  }

  /** The rendered rows of the table are kept, each read back as itself. */
  lemma RowsRoundTrip(t: Table)
    requires Renderable(t)
    ensures KeptRows(|t.headers|, MapSeq(RowLine, t.rows)) == t.rows
  {
    var cells := MapSeq(Cells, MapSeq(RowLine, t.rows));
    forall k | 0 <= k < |t.rows| ensures cells[k] == t.rows[k] {
      CellsOfRow(t.rows[k]);
    }
    assert cells == t.rows;
    FilterAll(HasWidth(|t.headers|), cells);
  }

  // ---------------------------------------------------------------------------
  // generate_pdf: which table, if any, goes into the report

  /** The raw lines of `text` whose stripped form starts with '|', in their original order. */
  function Selected(text: string): seq<string> {
    Filter(TrimmedPipeLine, SplitLines(text))
  }

  /** `"\n".join([line for line in text.splitlines() if line.strip().startswith("|")])`. */
  function TablePart(text: string): string {
    Join("\n", Selected(text))
  }

  /**
    The table `generate_pdf` renders: an explicit DataFrame first; otherwise the lenient
    parse of the table part of a text that contains '|'; otherwise none (the page is
    rendered with an empty table).
   */
  function PdfTable(df: Option<Table>, text: Option<string>): Option<Table> {
    if df.Some? then df
    else if text.Some? && Contains(text.value, "|") then LenientTable(TablePart(text.value))
    else None
  }

  /** The parser sees exactly the selected lines, stripped. */
  lemma TablePartLines(text: string)
    ensures LenientLines(TablePart(text)) == MapSeq(Strip, Selected(text))
  {
    var sel := Selected(text);
    if |sel| == 0 {
      assert TablePart(text) == "";
      assert Strip("") == "" by {
        TrimBare("", IsSpace);
      }
    } else {
      SplitLinesNoBreak(text);
      forall i | 0 <= i < |sel| ensures NoLineBreak(sel[i]) && Strip(sel[i]) != "" {
        var j :| 0 <= j < |SplitLines(text)| && SplitLines(text)[j] == sel[i];
      }
      NonBlankLinesOfJoin(sel);
      FilterAll(PipeLine, MapSeq(Strip, sel));
    }
  }

  /** A line whose stripped form starts with '|' puts a '|' in the text. */
  lemma SelectedHasPipe(text: string, j: nat)
    requires j < |SplitLines(text)| && TrimmedPipeLine(SplitLines(text)[j])
    ensures Contains(text, "|")
  {
    var line := SplitLines(text)[j];
    assert Strip(line)[0] == '|';
    StripKeeps(line, '|');
    SplitLinesChars(text);
    ContainsChar(text, '|');
  }

  /**
    Without an explicit DataFrame, the report gets a table exactly when some line of the
    text strips to something starting with '|', and that table is the lenient reading of
    those lines, stripped, in their original order.
   */
  lemma PdfTableOfText(text: string)
    ensures PdfTable(None, Some(text)).None? <==>
      forall j :: 0 <= j < |SplitLines(text)| ==> !TrimmedPipeLine(SplitLines(text)[j])
    ensures PdfTable(None, Some(text)).Some? ==>
      PdfTable(None, Some(text)) == LenientOf(MapSeq(Strip, Selected(text)))
  {
    var ls := SplitLines(text);
    if j :| 0 <= j < |ls| && TrimmedPipeLine(ls[j]) {
      SelectedHasPipe(text, j);
      FilterMember(TrimmedPipeLine, ls, ls[j]);
      assert |Selected(text)| > 0;
    }
    if Contains(text, "|") {
      TablePartLines(text);
      if |Selected(text)| > 0 {
        var sel := Selected(text);
        var i :| 0 <= i < |ls| && ls[i] == sel[0];
      }
    }
  }

  /** An explicit DataFrame wins over any text. */
  lemma PdfTablePrefersFrame(df: Table, text: Option<string>)
    ensures PdfTable(Some(df), text) == Some(df)
  {
  }

  // ---------------------------------------------------------------------------
  // topdftest.py's file name

  /** The file name `generate_pdf` returns and the file name it has pdfkit write. */
  datatype PdfFiles = PdfFiles(returned: string, written: string)

  /** topdftest.py as written: it returns "report_test.pdf" but writes "test.pdf". */
  function TestPdfFilesAsWritten(): PdfFiles {
    PdfFiles("report_test.pdf", "test.pdf")
  }

  lemma TestPdfFilesAsWrittenDiffer()
    ensures TestPdfFilesAsWritten().returned != TestPdfFilesAsWritten().written
  {
    assert TestPdfFilesAsWritten().returned[0] == 'r' != 't' == TestPdfFilesAsWritten().written[0];
  }

  /** The evidently intended behaviour, as in qreview_ui.py: the file written is the file returned. */
  function TestPdfFiles(): (r: PdfFiles)
    ensures r.returned == r.written && r.returned == TestPdfFilesAsWritten().returned
  {
    PdfFiles("report_test.pdf", "report_test.pdf")
  }

  /** qreview_ui.py: `report_<timestamp>.pdf` is both written and returned. */
  function UiPdfFiles(stamp: string): (r: PdfFiles)
    ensures r.returned == r.written
    ensures StartsWith(r.returned, "report_") && EndsWith(r.returned, ".pdf")
  {
    var name := "report_" + stamp + ".pdf";
    assert name[..7] == "report_";
    assert name[|name| - 4..] == ".pdf";
    PdfFiles(name, name)
  }
}
