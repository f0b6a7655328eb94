# A verified model of the text and data routines of data-structure-class

The repository is a set of Python scripts that drive browsers, language-model SDKs and
agent frameworks. Inside them are small deterministic routines that decide what the
scripts send and what they keep. This project models those routines in Dafny and proves
what they promise:

- **Batch reviewer.** `tests/autogen/qreview/Qreview.py` handles the model's reply and
  streams the results to a CSV (modules `Qreview` and `QreviewOutput`):
  - strips a Markdown fence from the reply;
  - reconciles the decoded JSON with the seven review items;
  - splits the reply on the delimiter and cuts or pads it to the batch length;
  - writes 10-row batches to the CSV, with a header once.
- **Review-block converters.** Two `tocsv` versions turn scraped reviews into five-field
  rows: `tests/hw4/tocsv.py` and `tests/hw5/app.py` (module `ReviewBlocks`).
- **Markdown pipe-table readers.** Three versions, one strict and two lenient, plus the
  table-line selection of `generate_pdf` (module `MarkdownTables`).
- **Block loops.** These send CSV rows to a model block by block and gather one report
  (module `BlockAnalysis`):
  - `analyze_comments_with_ai` uses blocks of 20 and has three early returns;
  - `gradio_handler` uses blocks of 30 and keeps a snapshot after each block. It has no
    `try`, so the first failed model call ends it with that call's exception.
- **Route guards.** The report-summary truncation and the download path check of the
  Flask app (module `ReportRoutes`).
- **Ranking parser and collection loop.** The regular expression `#(\d+)\n(.+?) - (.+)`
  written out with string functions, the per-URL entry rule and the collection loop of
  `lib/getRanking.py` (module `Ranking`).
- **Ranking store.** `saveRank.py` keeps a store keyed by date. Its main block builds a
  URL list and a key list that must stay index-aligned (module `SaveRank`).
- **Cutting the store in pairs.** Both scripts cut the stored entries into pairs:
  - `tests/autogen/dataAgent.py` stamps each agent message with its batch bounds and
    flattens them in batch order (module `DataAgent`);
  - `tests/autogen/dfjson.py` guards the cut, then prints labelled pairs (module
    `DfJson`).

Shared modules:

- `Strings`: Python's `str` operations over `seq<char>`, such as `strip`, `split`,
  `splitlines` and `join`.
- `JsonValues`: JSON values, with dicts as ordered entry lists as Python keeps them.
- `Chunking`: range-step slicing, flattening, map and filter.
- `Wrappers`: `Option`.

**Where the scripts change state, the model does too.** Loops become methods with loop
invariants, proved against a specification function. The CSV output of the reviewer
and the rankings file are classes whose methods change their fields.

**Values from the outside are parameters.** These are:

- the model and agent calls;
- the JSON decoder;
- the CSV and `repr` rendering;
- the PDF writer;
- `os.path.abspath` and the file-existence test;
- what the browser observes on each page.

Every file is given to Dafny together:

    dafny verify *.dfy

## Model

| member | source | states |
|---|---|---|
| Qreview.ItemsDistinct | tests/autogen/qreview/Qreview.py:14-22 | the seven review item names are pairwise distinct |
| Qreview.StripFence | tests/autogen/qreview/Qreview.py:30-38 | the decoder's input has no surrounding whitespace, and is the trimmed reply itself when the trimmed reply does not start with the fence |
| Qreview.FencedText | tests/autogen/qreview/Qreview.py:33-38 | a fenced reply's text is the opening fence line, the body lines and the closing fence joined by newlines |
| Qreview.FencedReply | tests/autogen/qreview/Qreview.py:30-33 | a reply written as an opening fence line, single-line body lines and a closing fence is already trimmed, starts with the fence and splits back into exactly those lines |
| Qreview.DropFenceLinesOfFenced | tests/autogen/qreview/Qreview.py:34-37 | dropping the opening fence line and a closing line that trims to the fence leaves exactly the body lines |
| Qreview.StripFenceOfFenced | tests/autogen/qreview/Qreview.py:30-38 | a fenced reply is decoded from its body lines joined by newlines and trimmed |
| Qreview.LookupAppend | tests/autogen/qreview/Qreview.py:43-44 | adding a missing key gives that key its value and leaves every other lookup unchanged |
| Qreview.FilledLookup | tests/autogen/qreview/Qreview.py:42-44 | the fill loop keeps the object's members as a prefix: a key already present keeps its value, a missing item maps to "", and no other key appears |
| Qreview.EmptyResultLookup | tests/autogen/qreview/Qreview.py:49 | the failure result has exactly the seven items as keys, each mapped to "" |
| Qreview.ReconciledLookup | tests/autogen/qreview/Qreview.py:40-49 | a decoded object keeps its members and gains each missing item as ""; a decode failure or a non-object value gives exactly the all-"" result; either way every item is a key |
| Qreview.FillItems | tests/autogen/qreview/Qreview.py:42-44 | the loop computes the left fold of "add the item with "" unless present" over the items |
| Qreview.ParseResponse | tests/autogen/qreview/Qreview.py:24-49 | corrected, see Findings row 1: returns the reconciled decode of the fence-stripped reply, and every item is a key of the result (as written, a decoded list or string naming every item is returned unchanged) |
| Qreview.ParseResponseAsWrittenKeepsList | tests/autogen/qreview/Qreview.py:41-45 | as written, a reply that decodes to the list of item names comes back as that list, not as a dict |
| Qreview.ReconciledAsWrittenKeepsList | tests/autogen/qreview/Qreview.py:42-45 | as written, the fill loop returns a list that holds every item name unchanged |
| Qreview.ParseResponseAsWrittenAgrees | tests/autogen/qreview/Qreview.py:40-49 | wherever the as-written code does return a dict, it is the reconciled one |
| Qreview.QuestionLines | tests/autogen/qreview/Qreview.py:69 | one comma-joined line per question |
| Qreview.BatchTextSplit | tests/autogen/qreview/Qreview.py:69 | when no question line runs into a delimiter line, splitting the batch text on the delimiter line gives back exactly the question lines |
| Qreview.Segments | tests/autogen/qreview/Qreview.py:84-87 | at most one segment per piece, each non-empty and trimmed |
| Qreview.SegmentsNoBlank | tests/autogen/qreview/Qreview.py:84-87 | when no piece is blank, segment j is piece j trimmed, for every j |
| Qreview.SegmentsStep | tests/autogen/qreview/Qreview.py:84-87 | a non-blank last piece adds its trimmed text as the last segment |
| Qreview.Fit | tests/autogen/qreview/Qreview.py:89-92 | exactly n results: the first ones kept in order, the shortfall padded at the end |
| Qreview.ParseAll | tests/autogen/qreview/Qreview.py:87 | one parsed result per segment, in segment order |
| Qreview.ParseAllSnoc | tests/autogen/qreview/Qreview.py:84-87 | parsing one more segment appends its result |
| Qreview.BatchResults | tests/autogen/qreview/Qreview.py:51-93 | exactly one result per question |
| Qreview.BatchResultsShape | tests/autogen/qreview/Qreview.py:72-93 | every result has every item as a key; on ServerError every result is the all-"" result; otherwise result j parses segment j of the reply split on the delimiter, or is the all-"" result past the last segment |
| Qreview.CollectResults | tests/autogen/qreview/Qreview.py:83-87 | the loop yields the parses of the non-blank trimmed pieces, in order |
| Qreview.ProcessBatchQuestion | tests/autogen/qreview/Qreview.py:51-93 | the method returns the batch's results as specified above |
| QreviewOutput.FindName | tests/autogen/qreview/Qreview.py:119-120 | a found column index holds the name, and the search fails exactly when the name is not a column |
| QreviewOutput.FindNameDistinct | tests/autogen/qreview/Qreview.py:119-120 | with distinct column names, each name is found at its own index |
| QreviewOutput.SetColumn | tests/autogen/qreview/Qreview.py:125 | assigning a column keeps the frame well formed; an existing name keeps the column list, a new name is added at the right |
| QreviewOutput.SetColumnCell | tests/autogen/qreview/Qreview.py:125 | after the assignment the named column holds the given values and every other cell is unchanged |
| QreviewOutput.ColumnsAfterShape | tests/autogen/qreview/Qreview.py:124-125 | assigning the item columns keeps the input columns as a prefix, keeps names distinct, and the columns are exactly the input columns and the items |
| QreviewOutput.ItemColumn | tests/autogen/qreview/Qreview.py:125 | one value per result |
| QreviewOutput.WithItems | tests/autogen/qreview/Qreview.py:124-125 | the item loop keeps the frame well formed, with the columns given by ColumnsAfter |
| QreviewOutput.WithItemsCell | tests/autogen/qreview/Qreview.py:124-125 | every item column holds `res.get(item, "")` of that row's result, and each other column is unchanged |
| QreviewOutput.InputFrame | tests/autogen/qreview/Qreview.py:108-118 | the batch frame has the CSV's columns and one row per input row |
| QreviewOutput.Questions | tests/autogen/qreview/Qreview.py:119-121 | one word pair per row of the batch |
| QreviewOutput.OutputRows | tests/autogen/qreview/Qreview.py:123-125 | one output row per input row |
| QreviewOutput.OutputRowCells | tests/autogen/qreview/Qreview.py:123-125 | output row k has one cell per output column; its item cells are `res.get(item, "")` of result k and its other cells are input row k's |
| QreviewOutput.CellByNameOf | tests/autogen/qreview/Qreview.py:125 | reading a row's cell by column name agrees with the frame's cell lookup |
| QreviewOutput.InputFrameCell | tests/autogen/qreview/Qreview.py:108-118 | the batch frame's cells are the input row's strings |
| QreviewOutput.BatchRowsCells | tests/autogen/qreview/Qreview.py:118-125 | each batch row keeps its input cells outside the item columns and fills every item column from the model's result for that row |
| QreviewOutput.DataLinesAppend | tests/autogen/qreview/Qreview.py:127-129 | writing two runs of rows one after the other gives the lines of writing them at once |
| QreviewOutput.BatchesLinesFlatten | tests/autogen/qreview/Qreview.py:109-129 | the data lines of all batches are the data lines of all their output rows concatenated in batch order |
| QreviewOutput.ChunksFit | tests/autogen/qreview/Qreview.py:116-118 | every 10-row batch gives one output row per input row |
| QreviewOutput.FileLinesSnoc | tests/autogen/qreview/Qreview.py:126-129 | the first batch writes the header and its rows, and each later batch appends its rows with no header |
| QreviewOutput.BatchesLinesLength | tests/autogen/qreview/Qreview.py:116-129 | the batches write as many data lines as there are input rows |
| QreviewOutput.BatchesLinesAt | tests/autogen/qreview/Qreview.py:116-129 | data line k is the output row, within its batch, of input row k |
| QreviewOutput.FileLinesAt | tests/autogen/qreview/Qreview.py:114-129 | over 10-row batches the file is the header and then one line per input row, line k+1 coming from input row k |
| QreviewOutput.FileLength | tests/autogen/qreview/Qreview.py:126-129 | for n > 0 rows the file holds n + 1 lines with the header first, and nothing is written for no rows |
| QreviewOutput.ExpectedOutputShape | tests/autogen/qreview/Qreview.py:114-130 | the output of a run is one header of the output columns plus one line per input row, in input order, each keeping that row's non-item cells |
| QreviewOutput.CsvFile.Remove | tests/autogen/qreview/Qreview.py:105-106 | afterwards no output file exists |
| QreviewOutput.CsvFile.Write | tests/autogen/qreview/Qreview.py:127 | the file holds exactly the header and the rows |
| QreviewOutput.CsvFile.Append | tests/autogen/qreview/Qreview.py:129 | the rows are added after the file's old lines, with no header |
| QreviewOutput.RunReview | tests/autogen/qreview/Qreview.py:95-133 | corrected, see Findings row 1: with the reconciled parse, completes exactly when there are no rows or both word columns exist; then the file holds the expected output; a missing word column leaves no file (as written, a batch whose reply decodes to such a list or string raises AttributeError at line 125, after the earlier batches were written) |
| QreviewOutput.ReviewBatches | tests/autogen/qreview/Qreview.py:114-131 | the batch loop leaves exactly the expected output in the file |
| QreviewOutput.WriteBatch | tests/autogen/qreview/Qreview.py:126-129 | writing batch b, with the header only when b is 0, extends the file holding batches 0..b-1 to the file holding batches 0..b |
| QreviewOutput.ProcessBatch | tests/autogen/qreview/Qreview.py:118-125 | returns the output header and the batch's output rows |
| QreviewOutput.FillBatch | tests/autogen/qreview/Qreview.py:124-125 | the item loop on the frame yields WithItems |
| QreviewOutput.BatchRowsIs | tests/autogen/qreview/Qreview.py:122-125 | a batch's rows are the input frame with the item columns filled from the batch results |
| MarkdownTables.KeepRows | tests/hw5/app.py:229-235 | the row loop keeps, in order, the cells of exactly those lines whose cell count equals the header count |
| MarkdownTables.ParseMarkdownTableStrict | tests/hw5/app.py:215-245 | the comprehension-and-loop parser returns StrictTable of the text |
| MarkdownTables.ParseMarkdownTableLenient | tests/autogen/qreview/qreview_ui.py:40-65 | the comprehension-and-loop parser (also tests/autogen/qreview/topdftest.py:62-87) returns LenientTable of the text |
| MarkdownTables.CellsClean | tests/hw5/app.py:226-231 | a line splits into at least one cell, and every cell is stripped and holds no '\|' |
| MarkdownTables.KeptRowsSpec | tests/hw5/app.py:230-233 | every kept row has exactly the header count of cells, and a row is kept exactly when it has that width and is the cells of some line |
| MarkdownTables.KeptRowsAppend | tests/hw5/app.py:230-233 | the rows kept from two runs of lines are the rows of the first followed by the rows of the second |
| MarkdownTables.KeptRowsEmpty | tests/hw5/app.py:237-238 | no row is kept exactly when no line has the header width |
| MarkdownTables.StrictOfShape | tests/hw5/app.py:219-245 | None exactly when there are fewer than three table lines or no line after the second has the header width; otherwise the headers are the first line's cells and there is at least one row, each of the header width |
| MarkdownTables.LenientOfShape | tests/autogen/qreview/qreview_ui.py:53-65 | None exactly when there is no table line; otherwise the headers are the first line's cells, every row has their width, and with fewer than three table lines the table has no rows |
| MarkdownTables.PipeLineNonBlank | tests/autogen/qreview/qreview_ui.py:51-53 | a line whose stripped form starts with '\|' is not blank |
| MarkdownTables.LenientTableNone | tests/autogen/qreview/qreview_ui.py:49-55 | the lenient parser returns None exactly when no line of the text, stripped, starts with '\|' (also tests/autogen/qreview/topdftest.py:71-77) |
| MarkdownTables.CellsOfRow | tests/hw5/app.py:226 | splitting a rendered row gives back its cells |
| MarkdownTables.RowLineShape | tests/hw5/app.py:219 | a rendered row is one stripped line that starts and ends with '\|' |
| MarkdownTables.NonBlankLinesOfJoin | tests/hw5/app.py:217-218 | the non-blank stripped lines of lines joined by newlines are those lines, stripped |
| MarkdownTables.TableLinesShape | tests/hw5/app.py:218-219 | every line of a rendered table is a one-line, stripped, non-blank table line |
| MarkdownTables.RenderedLines | tests/hw5/app.py:217-218 | the parser's line pass over a rendered table's text yields exactly the table's lines |
| MarkdownTables.TableRoundTrip | tests/hw5/app.py:215-245 | parsing a table rendered with any separator line gives the table back: always for the lenient parser, and for the strict one whenever the table has a row (None otherwise) |
| MarkdownTables.ReadRendered | tests/autogen/qreview/qreview_ui.py:57-65 | reading a rendered table's lines gives the table back, from both readers |
| MarkdownTables.RowsRoundTrip | tests/hw5/app.py:230-233 | reading rendered rows of the header width keeps all of them, in order |
| MarkdownTables.TablePartLines | tests/autogen/qreview/qreview_ui.py:76-77 | the parser sees exactly the lines selected by `generate_pdf`, stripped, in original order |
| MarkdownTables.SelectedHasPipe | tests/autogen/qreview/qreview_ui.py:74-76 | a selected line means the text contains '\|', so the selection is reachable |
| MarkdownTables.PdfTableOfText | tests/autogen/qreview/qreview_ui.py:72-85 | on text alone, no table is produced exactly when no line's stripped form starts with '\|'; otherwise the table is read from the selected lines, stripped (also tests/autogen/qreview/topdftest.py:94-105) |
| MarkdownTables.PdfTablePrefersFrame | tests/autogen/qreview/qreview_ui.py:70-71 | an explicit frame is rendered whatever the text holds |
| MarkdownTables.TestPdfFilesAsWrittenDiffer | tests/autogen/qreview/topdftest.py:112-119 | as written, the file name returned differs from the file written |
| MarkdownTables.TestPdfFiles | tests/autogen/qreview/topdftest.py:112-119 | corrected: the name returned is the name written, and it is still "report_test.pdf" |
| MarkdownTables.UiPdfFiles | tests/autogen/qreview/qreview_ui.py:90-97 | the name returned is the name written, of the form "report_<stamp>.pdf" |
| ReviewBlocks.BlockLines | tests/hw4/tocsv.py:16 | a block always splits into at least one line |
| ReviewBlocks.Somes | tests/hw4/tocsv.py:15-26 | the rows that exist, in order, never more than the blocks |
| ReviewBlocks.SomesSnoc | tests/hw4/tocsv.py:26 | one more block appends its row when it has one, and nothing otherwise |
| ReviewBlocks.SomesAppend | tests/hw4/tocsv.py:15-26 | the rows of two runs of blocks are the rows of the first followed by the rows of the second |
| ReviewBlocks.SomesMember | tests/hw4/tocsv.py:15-26 | a row is emitted exactly when some block produced it |
| ReviewBlocks.Hw4Row | tests/hw4/tocsv.py:17-26 | a row, when there is one, has exactly five fields |
| ReviewBlocks.Hw4ToCsv | tests/hw4/tocsv.py:3-32 | the loop writes the fixed five-name header and the rows of the blocks, in block order |
| ReviewBlocks.Hw4BlockRow | tests/hw4/tocsv.py:16-26 | one loop iteration gives the block's row, or nothing for a block of fewer than five lines |
| ReviewBlocks.Hw4Fields | tests/hw4/tocsv.py:20-24 | the five field assignments give the row of a block of at least five lines |
| ReviewBlocks.Hw4RowsShape | tests/hw4/tocsv.py:15-26 | at most one row per block, each of five fields |
| ReviewBlocks.Hw4IgnoresSecondLine | tests/hw4/tocsv.py:20-24 | the second line of a block never affects its row |
| ReviewBlocks.Hw4FiveLines | tests/hw4/tocsv.py:17-24 | a block of exactly five lines gives a row whose comment is "" |
| ReviewBlocks.Hw4ReadsReview | tests/hw4/tocsv.py:16-24 | a block written as "\*user\*", any second line, "規格 : spec", date, rating and a one-line comment reads back as exactly those five fields |
| ReviewBlocks.ReviewFields | tests/hw4/tocsv.py:20-24 | the user, spec and comment rules undo the star, the spec tag and the line join on clean fields |
| ReviewBlocks.ReviewBlockLines | tests/hw4/tocsv.py:16 | lines with no line break and no whitespace at the block's two ends, joined by newlines, split back into the same lines |
| ReviewBlocks.Hw5Row | tests/hw5/app.py:143-161 | a row, when there is one, has exactly five fields |
| ReviewBlocks.Hw5ToCsv | tests/hw5/app.py:129-172 | a missing file gives no table; otherwise the header and the rows of the non-skipped blocks, in block order |
| ReviewBlocks.Hw5Fields | tests/hw5/app.py:144-158 | the field assignments give the row of a block whose first line is not empty |
| ReviewBlocks.Hw5SkipsBlank | tests/hw5/app.py:139-141 | a block is skipped exactly when it is blank after stripping |
| ReviewBlocks.Hw5RowsShape | tests/hw5/app.py:138-161 | at most one row per block, each of five fields |
| ReviewBlocks.Hw5Defaults | tests/hw5/app.py:144-158 | with four lines or fewer the rating is "N/A" and the comment ""; with three or fewer the date is "N/A"; with two or fewer the spec is "N/A" |
| ReviewBlocks.Hw5AgreesWithHw4 | tests/hw5/app.py:148-154 | on a block of five or more lines whose third line holds "規格" and fifth holds "評等", the two versions give the same row |
| ReviewBlocks.Hw5CommentWithoutRating | tests/hw5/app.py:152-156 | when the fifth line does not hold "評等" the rating stays "N/A" and the comment starts at the fifth line |
| BlockAnalysis.ConcatPrefix | tests/hw5/app.py:331-335 | the report after j blocks is a prefix of the final report |
| BlockAnalysis.AnalyzeEarlyReturns | tests/hw5/app.py:293-302 | no model call is made exactly when the client is missing, the CSV is missing or it is empty; then there is no PDF and no table, and the text is the matching message |
| BlockAnalysis.AnalysisBlocks | tests/hw5/app.py:311-317 | the 20-row blocks partition the rows, one prompt per block; block b starts at row 20b and its prompt names rows 20b+1 to min(20b+20, total) with that block's CSV |
| BlockAnalysis.AnalysisReport | tests/hw5/app.py:322-335 | one section per block in block order: the stripped reply under "--- 分析區塊 b+1 ---", or the failure line when the call raised; the report after j blocks is a prefix of the final report |
| BlockAnalysis.AnalyzeCommentsWithAi | tests/hw5/app.py:289-345 | the function with its early returns, loop and PDF step returns Analyze |
| BlockAnalysis.AnalysisLoop | tests/hw5/app.py:311-335 | the loop sends the specified prompts and accumulates the concatenation of their sections |
| BlockAnalysis.AnalysisStep | tests/hw5/app.py:312-335 | one loop iteration keeps the loop's progress invariant and advances the start row by 20 |
| BlockAnalysis.AnalysisCallAt | tests/hw5/app.py:314-317 | the prompt built from start row i = 20b is block b's prompt |
| BlockAnalysis.AnalysisCallsSnoc | tests/hw5/app.py:311-317 | one more block appends its prompt |
| BlockAnalysis.AnalysisSectionsSnoc | tests/hw5/app.py:331-335 | one more call appends its section, numbered after the ones before |
| BlockAnalysis.AnalysisBlockNumber | tests/hw5/app.py:331 | block number `i//20+1` at start row i = 20b is b + 1 |
| BlockAnalysis.HandlerBlocks | tests/autogen/qreview/qreview_ui.py:99-142 | with an upload the 30-row blocks partition the rows and block b's prompt names rows 30b+1 to min(30b+30, total); when the handler returns, every prompt was answered and the text is the sections "區塊 b+1:\n<reply>\n\n" in block order; without an upload a single question is asked and its stripped reply is the text |
| BlockAnalysis.HandlerRaises | tests/autogen/qreview/qreview_ui.py:116-137 | the handler raises exactly when a model call fails (no `try` around `generate_content` or `.text.strip()`): without an upload when the single question fails; with one after sending the prompts up to and including the first failing block's, every earlier one answered, with that call's exception |
| BlockAnalysis.BlocksRaise | tests/autogen/qreview/qreview_ui.py:109-122 | the block loop over any prompt list raises exactly when some prompt fails, having sent the prompts up to and including the first failing one, every earlier one answered |
| BlockAnalysis.FirstFailureAnswered | tests/autogen/qreview/qreview_ui.py:116-120 | the first failing call lies past the end exactly when every call was answered, and every call before it was answered |
| BlockAnalysis.FirstFailureAt | tests/autogen/qreview/qreview_ui.py:116-120 | a call that fails after only answered ones is the first failure |
| BlockAnalysis.SnapshotsGrow | tests/autogen/qreview/qreview_ui.py:121-122 | one snapshot per block; each is the one before plus the new section, each is a prefix of the final text, and the last is the final text |
| BlockAnalysis.GradioHandler | tests/autogen/qreview/qreview_ui.py:99-142 | the handler's outcome, returned report or raised exception, is the one Handler specifies, whose raising and returning cases HandlerRaises and HandlerBlocks state |
| BlockAnalysis.UiLoop | tests/autogen/qreview/qreview_ui.py:109-122 | the loop raises exactly when some block's call fails, having sent the prompts up to and including the first failing one, and carries that call's exception; otherwise it sent every block's prompt, every one was answered, and it accumulated their sections and kept the snapshots |
| BlockAnalysis.UiRaisedAt | tests/autogen/qreview/qreview_ui.py:109-120 | when the call for the block at row i fails, the prompts sent so far with that one are the first prompts of the run, and that call is its first failure |
| BlockAnalysis.UiFinished | tests/autogen/qreview/qreview_ui.py:109-122 | once the loop has passed the last row, every block's prompt was sent and answered |
| BlockAnalysis.UiStep | tests/autogen/qreview/qreview_ui.py:110-122 | one loop iteration keeps the loop's progress invariant and advances the start row by 30 |
| BlockAnalysis.UiBlockNumber | tests/autogen/qreview/qreview_ui.py:121 | block number `i//30+1` at start row i = 30b is b + 1 |
| BlockAnalysis.UiCallAt | tests/autogen/qreview/qreview_ui.py:112-113 | the prompt built from start row i = 30b is block b's prompt |
| BlockAnalysis.UiCallsSnoc | tests/autogen/qreview/qreview_ui.py:109-113 | one more block appends its prompt |
| BlockAnalysis.UiSectionsSnoc | tests/autogen/qreview/qreview_ui.py:121 | one more call appends its section |
| BlockAnalysis.SnapshotsSnoc | tests/autogen/qreview/qreview_ui.py:122 | one more section appends the whole report so far as a snapshot |
| ReportRoutes.SummaryShape | tests/hw5/app.py:397-406 | a text of at most 500 characters is sent whole; a longer one becomes its first 500 characters and "...", so a summary has at most 503 characters and starts with the text's first min(500, len) characters |
| ReportRoutes.ReportRouteOutcome | tests/hw5/app.py:382-407 | 400 exactly when the prompt is missing or empty, with no summary; otherwise the summary of the analysis, 200 exactly when a PDF was written, else 500 with no PDF; a missing client gives the 500 answer whose summary is that error message |
| ReportRoutes.DownloadOutcome | tests/hw5/app.py:410-420 | 403 exactly when the normalised path does not start with the normalised directory, 404 exactly when it does and the file is absent, and otherwise the file is sent |
| ReportRoutes.JoinPathShape | tests/hw5/app.py:414 | an absolute name replaces the directory; otherwise the joined path starts with the directory; it always ends with the name |
| Ranking.DigitRun | lib/getRanking.py:20 | the `\d+` group: the longest run of digits the text starts with |
| Ranking.FirstLine | lib/getRanking.py:20 | what `.` can match in a row: the text up to, and not including, the first newline |
| Ranking.FirstSeparator | lib/getRanking.py:20 | the lazy group ends at the first " - " that has at least one character before it and one after it on the line |
| Ranking.RankLine | lib/getRanking.py:20-31 | a parsed second line carries the rank it was given |
| Ranking.ParseNeedsHeader | lib/getRanking.py:20-34 | a successful parse means the text starts with '#', one or more digits and a newline, and the rank is the value of those digits |
| Ranking.DigitRunOf | lib/getRanking.py:20 | the digit run of digits followed by a non-digit is exactly those digits |
| Ranking.ParseHeader | lib/getRanking.py:20-24 | after "#digits\n" the result depends only on the rank value and the next line |
| Ranking.FirstLineOf | lib/getRanking.py:20 | a line followed by nothing or a newline is read up to that newline |
| Ranking.ParseIgnoresLaterLines | lib/getRanking.py:20 | lines after the second never change the result |
| Ranking.RankLineSpec | lib/getRanking.py:20-31 | the second line fails exactly when it has no usable " - "; otherwise category and metric are the stripped text before and after the first usable one |
| Ranking.FirstSeparatorIs | lib/getRanking.py:20 | the first usable separator from a position on is found |
| Ranking.ParseRoundTrip | lib/getRanking.py:18-31 | the text "#digits\ncategory - metric" read back gives exactly that rank, category and metric, for a category holding no " - " and any trailing lines |
| Ranking.CategorySplit | lib/getRanking.py:20-24 | a category holding no " - " is cut at its own end |
| Ranking.RecordKeys | lib/getRanking.py:12-31 | a parsed entry has exactly the keys rank, category and metric with the parsed values; `empty_rank` has exactly rank = 'NA' and category = 'NA' |
| Ranking.EntryForSpec | lib/getRanking.py:75-97 | the entry differs from `empty_rank` exactly when the page has 15 list items and item 13's text parses, and is then that parse; every entry has rank and category |
| Ranking.CollectFromSpec | lib/getRanking.py:68-103 | at most one entry per URL; entry j is the rule applied to page j; if the loop stopped early, the next page failed to load |
| Ranking.CollectedAll | lib/getRanking.py:68-103 | when every page loads, there is exactly one entry per URL |
| Ranking.GetRanking | lib/getRanking.py:36-103 | the loop returns the collected entries, and the list gathered so far however the run ends |
| SaveRank.SavedSpec | saveRank.py:7-26 | after a save today's date holds exactly the given rankings and every other date keeps its entry; the dates are the old ones plus today; a missing file or invalid JSON leaves exactly {today: rankings}; only a valid non-object JSON value makes the save fail |
| SaveRank.SaveIdempotent | saveRank.py:12-26 | saving the same rankings again on the same day leaves the same content |
| SaveRank.RankingsFile.Save | saveRank.py:7-26 | the file is rewritten with the saved dict exactly when the save succeeds, and is left unchanged when it raises |
| SaveRank.PickSpec | saveRank.py:55-58 | a value is picked exactly when the ranking is a dict with rank and category, and it holds exactly those two keys with the ranking's values |
| SaveRank.PickedValuesPrefix | saveRank.py:55-58 | the picks of the first m rankings are a prefix of the picks of the first n, for m <= n |
| SaveRank.KeysAlignWithUrls | saveRank.py:37-44 | when the keys walk the same platforms as the URLs, there is one key per URL and URL j is the overview URL, with store id and unlowered region, of the platform key j names |
| SaveRank.AssignKeys | saveRank.py:55-58 | the dict built by the assignments has exactly the assigned keys |
| SaveRank.AssignValues | saveRank.py:55-58 | with distinct keys, key j holds value j |
| SaveRank.KeyMappingSpec | saveRank.py:49-59 | the key pass succeeds exactly when every target has a ranking holding rank and category; its keys are exactly the targets' keys; with distinct keys, target j's key holds the rank and category of ranking j |
| SaveRank.AsWrittenAgreesWhenIdsTruthy | saveRank.py:41-59 | when every present platform id is truthy, both passes pick the same platforms and the key pass as written equals the aligned one |
| SaveRank.SameRegionsTargets | saveRank.py:41-57 | for an app whose present ids are truthy, the two rules pick the same platforms in every region |
| SaveRank.SingleApp | saveRank.py:37-40 | one app with one region has that region's targets |
| SaveRank.NullIosTargets | saveRank.py:41-57 | for an app with an empty iOS id, the key pass as written visits iOS and Android, the URL pass Android only |
| SaveRank.NullIosKeys | saveRank.py:55-58 | the keys of that app's two platforms are "a_tw_ios" and "a_tw_android" |
| SaveRank.NullIosAligned | saveRank.py:49-59 | the aligned key pass files that app's one ranking under its Android key |
| SaveRank.NullIosUrls | saveRank.py:37-44 | that app yields the single Android overview URL |
| SaveRank.NullIdMisaligns | saveRank.py:41-59 | as written, one URL is fetched but two keys are filled: the first ranking goes to the iOS key and the second lookup runs past the end, while the aligned pass files the ranking under the Android key |
| SaveRank.RegionsTargetsSnoc | saveRank.py:40 | one more region appends its platforms |
| SaveRank.AppsTargetsSnoc | saveRank.py:37 | one more app appends its regions' platforms |
| SaveRank.BuildUrls | saveRank.py:35-44 | the nested loops build exactly the URL list AppUrls: app by app, region by region, iOS before Android, truthy ids only |
| SaveRank.AddAppUrls | saveRank.py:38-44 | one app's loop appends the URLs of its regions' platforms |
| SaveRank.AddRegionUrls | saveRank.py:41-44 | one region's step appends the URLs of its picked platforms |
| SaveRank.RegionsTargetsPrefix | saveRank.py:53 | the platforms of the first regions are never more than those of all regions |
| SaveRank.AppsTargetsPrefix | saveRank.py:50 | the platforms of the first apps are never more than those of all apps |
| SaveRank.KeyMappingLast | saveRank.py:55-59 | one more target either adds its key with the next ranking's pick or raises |
| SaveRank.PrefixRaises | saveRank.py:49-59 | once the key pass raises on a prefix, it raises on the whole list |
| SaveRank.AddKey | saveRank.py:55-59 | one key assignment fills the target's key and advances the index by one |
| SaveRank.MaybeAddKey | saveRank.py:54-59 | one platform step of the key pass keeps the loop invariant |
| SaveRank.AddRegionKeys | saveRank.py:53-59 | one region's steps extend the key pass by that region's platforms, or raise |
| SaveRank.AddAppKeys | saveRank.py:50-59 | one app's loop extends the key pass by its regions' platforms, or raise |
| SaveRank.MapKeys | saveRank.py:49-59 | the nested key loops, under either rule, compute KeyMapping of that rule's platforms |
| SaveRank.CollectedPickable | lib/getRanking.py:12-97 | every entry `get_ranking` returns carries rank and category |
| SaveRank.FetchedFeasible | saveRank.py:47-59 | every target gets a ranking exactly when there is none, or the login worked and every page loaded |
| SaveRank.FetchedValues | saveRank.py:48-58 | target j's ranking is the entry of its own URL's page |
| SaveRank.FetchedMapping | saveRank.py:47-59 | the key pass over the fetched rankings succeeds exactly when every page loaded, has the targets' keys, and with distinct keys files under each key the rank and category parsed from that target's own page |
| SaveRank.RankingsToSaveSpec | saveRank.py:35-62 | corrected, see Findings row 2 (as written, a present platform entry with a falsy id raises IndexError and nothing is saved): the dict to save exists exactly when there is no URL, or the login worked and every page loaded; its keys are exactly the platforms' keys, and with distinct keys each holds the rank and category read from its own URL's page |
| SaveRank.RunSaveRank | saveRank.py:28-65 | corrected, see Findings row 2 (as written, a present platform entry with a falsy id raises IndexError before the save): the main block saves exactly when the rankings were gathered and the file accepts the save; otherwise the file is unchanged |
| DataAgent.Items | tests/autogen/dataAgent.py:91 | the items exist exactly when the data is a dict, a list or a string |
| DataAgent.ChunkRecordsSpec | tests/autogen/dataAgent.py:53-66 | one record per text message in order, each carrying that message, `batch_start = start_idx` and `batch_end = start_idx + len(chunk) - 1`, with token counts None exactly when usage is absent |
| DataAgent.ProcessChunk | tests/autogen/dataAgent.py:17-67 | the message loop returns the records of the team's events for the chunk's prompt |
| DataAgent.RecordShape | tests/autogen/dataAgent.py:58-66 | every record dict has the same seven keys in order; token counts are null exactly when absent, and the batch bounds are the record's |
| DataAgent.BatchResults | tests/autogen/dataAgent.py:99-110 | one record list per chunk |
| DataAgent.PairsSpec | tests/autogen/dataAgent.py:93-96 | the chunks partition the items, all hold two items except possibly the last, and there are ceil(n/2) of them |
| DataAgent.BatchBounds | tests/autogen/dataAgent.py:59-102 | chunk idx starts at item 2·idx, which exists, and ends at min(2·idx+1, n-1) |
| DataAgent.FlattenInBatchOrder | tests/autogen/dataAgent.py:110-112 | the flattened records come chunk by chunk, batch starts never decreasing |
| DataAgent.BatchPrompt | tests/autogen/dataAgent.py:31-108 | chunk idx's records come from the prompt with start 2·idx, its own length, and the chunk count as `total_records` |
| DataAgent.BatchesSpec | tests/autogen/dataAgent.py:99-112 | every record of chunk idx has batch start 2·idx and batch end min(2·idx+1, n-1), and the flattened log is in batch order |
| DataAgent.AgentLogContents | tests/autogen/dataAgent.py:69-117 | a missing or empty key stops the run and data `len` refuses raises; otherwise the log holds exactly one record per text message in the team's replies to the pair prompts, each record is stamped with the first and last index of one pair (an even start below n, the end min(start+1, n-1)), and the log is ordered by pair |
| DataAgent.LogStamped | tests/autogen/dataAgent.py:53-112 | whatever the team replies, the flattened records count its text messages, carry their pair's bounds and come in pair order |
| DataAgent.DataAgentMain | tests/autogen/dataAgent.py:69-117 | the main function with its chunk loop returns AgentLog |
| DfJson.ChunkLines | tests/autogen/dfjson.py:26-27 | one printed line per chunk |
| DfJson.ReportOutcome | tests/autogen/dfjson.py:12-30 | the chunks are printed exactly when the store is a dict with the date key and the app in that date's value; the not-found line exactly when the date is missing, or the app missing from its value; it raises exactly when a membership test or the indexing fails |
| DfJson.ReportChunks | tests/autogen/dfjson.py:13-27 | when found, the pairs partition the store's top-level entries (the dates, not the app's records) in order, all of size 2 except possibly the last, and line i reads "Chunk i+1: " followed by pair i |
| DfJson.LabelsCount | tests/autogen/dfjson.py:26-27 | the label of line i reads back as the number i + 1 |
| DfJson.DfJsonMain | tests/autogen/dfjson.py:12-30 | the guard, the range-step loop and the printing loop print Report |
| Chunking.FlattenAppend | tests/autogen/dataAgent.py:112 | flattening one more list appends its elements |
| Chunking.MapSeq | tests/autogen/dataAgent.py:99-108 | one result per element, result j being the function applied to element j |
| Chunking.Filter | tests/autogen/dataAgent.py:54-57 | the kept elements satisfy the test and come from the input |
| Chunking.FilterMember | tests/autogen/dataAgent.py:54-57 | an element is kept exactly when it is in the input and passes the test |
| Chunking.Slice | tests/autogen/dataAgent.py:95 | `items[i:i+size]`: min(size, n-i) elements starting at i |
| Chunking.ChunksPartition | tests/autogen/dataAgent.py:93-95 | the chunks concatenate back to the input, each holds between one and `size` elements, all but the last exactly `size`, and there are none exactly when the input is empty |
| Chunking.ChunkAt | tests/autogen/qreview/Qreview.py:116-118 | chunk j starts inside the input at j·size and is `s[j*size : j*size+size]` |
| Chunking.ChunkCountBounds | tests/autogen/dataAgent.py:93-96 | the chunk count c satisfies (c-1)·size < n ≤ c·size for non-empty input |
| Chunking.ChunkSlices | tests/autogen/dfjson.py:21-23 | the range-step loop of slices computes Chunks (also tests/autogen/dataAgent.py:93-95) |
| JsonValues.SetKey | saveRank.py:22 | `d[k] = v`: k maps to v, every other key is unchanged, and the keys gain k |
| JsonValues.SetKeyIdempotent | saveRank.py:22 | assigning the same value twice equals assigning it once |
| JsonValues.PyIn | tests/autogen/dfjson.py:12 | Python's `in` answers on a dict, a list or a string, and raises on any other value |
| Strings.TrimIdempotent | tests/autogen/qreview/Qreview.py:85 | `str.strip` leaves no whitespace at either end, and stripping again changes nothing |
| Strings.Split | tests/autogen/qreview/Qreview.py:82 | `str.split(sep)` gives at least one piece and no piece contains the separator |
| Strings.SplitJoin | tests/autogen/qreview/Qreview.py:82 | joining the pieces with the separator gives the text back |
| Strings.JoinSplit | tests/autogen/qreview/Qreview.py:69-82 | splitting a join on its separator gives the parts back when no part contains the separator |
| Strings.SplitLinesJoin | tests/autogen/qreview/Qreview.py:33-38 | `splitlines` undoes a newline join of one-line strings, with or without a final newline |
| Strings.LowerAsciiIdempotent | saveRank.py:55 | no upper-case ASCII letter is left after lowering, lowering again changes nothing, and a string without one comes back unchanged |
| Strings.DecimalString | tests/autogen/dfjson.py:27 | a non-empty run of digits whose value is the number |

## Left out

**External code and I/O**

- Browser automation is not modelled: Selenium, the login steps, `scrapeComments` and
  the mail script. It is I/O against live pages. The login outcome and the page each URL
  shows are inputs (`Ranking.Page`, `Ranking.Visit`).
- The model and agent calls are not modelled: genai `generate_content`, the autogen team
  and `asyncio.gather`. They are foreign services, so each reply is a function of its
  prompt. Where a script lets a failed call through or handles it, the reply is either
  text or the exception the call raised (`BlockAnalysis.AiReply`, and the ServerError of
  `Qreview`). The results of the gathered tasks come back in task order, as `gather`
  promises.
- Library parsers and writers are not modelled: `json.load`/`json.loads`,
  `yaml.safe_load`, `pandas.read_csv`, `DataFrame.to_csv`, `csv.writer`, `json.dump` and
  Python's `repr` of a chunk. The decoder and the renderings are parameters, and a
  written file is a header and a list of rows.
- Reading the input files is not modelled (list.txt, the comments CSV, rankings.json,
  apps.yaml). Their contents are inputs, and a missing file is `None`.
- PDF and HTML generation is not modelled (pdfkit, Jinja2, `DataFrame.to_html`). Only
  the file name that is returned, and the table the PDF would draw, are modelled. In
  qreview_ui.py's `generate_pdf`, the output.html write and `pdfkit.from_file` (lines
  91-94) sit outside any `try`, so `gradio_handler` also raises when either fails; the
  model's `BlockAnalysis.UiOutcome` covers only the failures of the model calls.
- `datetime.now()` and `date.today()` are not modelled; the time stamp and today's date
  are inputs.
- `time.sleep`, `print`, `load_dotenv` and the environment are not modelled. Whether the
  client is ready, and the API key, are inputs.
- The Flask routing, `jsonify`, `url_for`, `send_from_directory` and the Gradio UIs are
  not modelled. The routing holds no logic.
- `Qreview.py`'s `main` is modelled from the point where the CSV has been read. The
  argument check, the output-name derivation and the missing-key `ValueError` that come
  before it are not modelled; they are process set-up.
- The `except` branches of `analyze_comments_with_ai` (tests/hw5/app.py:347-353) are not
  modelled. They catch a CSV read failure, and the `except Exception` branch also catches
  any failure after the block loop, such as the output.html write at line 269, which lies
  outside the pdfkit `try`. That path replaces the whole report with the error message and
  gives no PDF. In the model the CSV is either present with its rows or absent, and the
  PDF writer only returns a name or nothing.
- tests/hw4/discuss.py and the other context scripts are not part of this model. Their
  only own logic repeats the chunk arithmetic of dataAgent.py.

**Approximations**

- `Ranking.DigitRun`: `\d` is read as the ASCII digits 0-9. Python's `re` also matches
  other Unicode decimal digits there.
- `Strings.LowerAsciiIdempotent`: `str.lower` is modelled on ASCII letters only. Region codes are
  ASCII.
- `QreviewOutput.InputFrame`: every CSV cell is a string. pandas' NaN for empty cells
  and its numeric columns are not modelled.
- `SaveRank.App`: apps.yaml is assumed to have the expected shape. A platform entry is
  either missing (`None`) or has an `id`, and a falsy id is `""`. A platform entry
  without an `id` key, and a top-level shape error, would raise before any ranking is
  fetched.
- `JsonValues.Json`: `JNumber` holds an integer. A float that `json.load` reads is not
  modelled; the records and the rankings the scripts store hold integers and strings.
- `JsonValues.Lookup`: a JSON object is an ordered entry list and a lookup finds the
  first entry. `json.load` keeps the last of duplicate keys; that case is not modelled.
- `SaveRank.KeyMappingSpec`, `SaveRank.FetchedMapping` and
  `SaveRank.RankingsToSaveSpec` do not say which value a key ends with when two platforms
  share it. That happens when an app lists the same region twice; the later assignment
  wins.
- `MarkdownTables.ParseMarkdownTableLenient` is not checked against the sample text
  embedded in `tests/autogen/qreview/topdftest.py` (10 headers, 9 data rows, the bullet
  lines excluded). Evaluating the parser symbolically on that 30-line literal is beyond
  what the verifier unfolds. `MarkdownTables.TableRoundTrip` and
  `MarkdownTables.PdfTableOfText` state the general behaviour the sample would exhibit.

## Findings

| source | as written | input that shows it | evidently intended | confidence | as-written member | corrected member |
|---|---|---|---|---|---|---|
| tests/autogen/qreview/Qreview.py:41-45 | the item-filling loop runs on any decoded value; `item not in result` is a membership test on a list and a substring test on a string | a reply that decodes to the JSON list of the seven item names (or a string containing them all) comes back as that list instead of a dict, and `main` then raises AttributeError on `res.get` at Qreview.py:125, after the earlier batches were written | a non-object decode is treated like a failure and gives the all-"" dict | high (not executed) | Qreview.ParseResponseAsWrittenKeepsList | Qreview.ReconciledLookup |
| saveRank.py:41-44, 54-59 | the URL pass needs a truthy platform id, the key pass only a present key, and both pass one shared index | apps.yaml with one app `a`, region `TW`, an iOS entry with an empty id and an Android id `x`: one URL is fetched, the first ranking is filed under `a_tw_ios` and the second lookup raises IndexError, so nothing is saved | the key pass walks the same platforms as the URL pass, so ranking j is filed under the key of URL j | high (not executed) | SaveRank.NullIdMisaligns | SaveRank.RankingsToSaveSpec |
| tests/autogen/qreview/topdftest.py:112, 117, 119 | `generate_pdf` writes the PDF to "test.pdf" but returns "report_test.pdf" | any call of `generate_pdf` | the name returned is the file written, as in qreview_ui.py:90-97 | medium (not executed) | MarkdownTables.TestPdfFilesAsWrittenDiffer | MarkdownTables.TestPdfFiles |
