/**
  The loops that send CSV rows to the language model one block at a time and gather
  the replies into one report text:

  - `analyze_comments_with_ai` in tests/hw5/app.py cuts the comments into blocks of 20.
    Each block gets one section of the report: the stripped reply, or a failure line
    when the call raised. Three early returns come first.
  - `gradio_handler` in qreview_ui.py cuts the uploaded rows into blocks of 30 and keeps
    a snapshot of the report after every block. Without an upload it asks one question.
    No `try` surrounds its calls, so the first failed call ends it with its exception.

  The model call, the CSV rendering of a block (`DataFrame.to_csv`) and the PDF writer are
  parameters. What the PDF writer is handed, and the table it would draw, are modelled.
 */
module BlockAnalysis {
  import opened Wrappers
  import opened Strings
  import opened Chunking
  import opened MarkdownTables

  /** One row of the comments CSV. */
  type Row = seq<string>

  /** What a call to the model gives back: its text, or the message of the exception it raised. */
  datatype AiReply = AiText(text: string) | AiError(message: string)

  /** What the concatenation of a list of texts gains from one more text. */
  lemma ConcatSnoc(xs: seq<string>, s: string)
    ensures Concat(xs + [s]) == Concat(xs) + s
  {
    if |xs| == 0 {
      assert xs + [s] == [s];
    } else {
      JoinSnoc("", xs, s);
    }
  }

  /** The text after `j` sections is a prefix of the text after all of them. */
  lemma {:induction false} ConcatPrefix(xs: seq<string>, j: nat)
    requires j <= |xs|
    ensures StartsWith(Concat(xs), Concat(xs[..j]))
    decreases |xs| - j
  {
    if j == |xs| {
      assert xs[..j] == xs;
    } else {
      ConcatPrefix(xs, j + 1);
      TakeSnoc(xs, j);
      ConcatSnoc(xs[..j], xs[j]);
      PrefixOfPrefix(Concat(xs), Concat(xs[..j + 1]), Concat(xs[..j]), xs[j]);
    }
  }

  lemma PrefixOfPrefix(s: string, p: string, q: string, r: string)
    requires StartsWith(s, p) && p == q + r
    ensures StartsWith(s, q)
  {
    assert s[..|q|] == p[..|q|];
  }

  // ---------------------------------------------------------------------------
  // analyze_comments_with_ai (tests/hw5/app.py)

  const AnalysisBlockSize: nat := 20

  const NoClientMessage: string := "Error: GenAI Client not initialized. Check API Key and configuration."
  const NoCsvMessage: string := "Error: CSV file not found. Please scrape comments first."
  const EmptyCsvMessage: string := "CSV file is empty. No comments to analyze."

  /** The prompt for the block that holds rows `first` to `last`, counted from 1. */
  function AnalysisPrompt(first: nat, last: nat, blockCsv: string, userPrompt: string): string {
    "以下是CSV格式的商品評論資料第 " + DecimalString(first) + " 到 " + DecimalString(last) + " 筆：\n"
    + "```csv\n" + blockCsv + "\n```\n\n"
    + "請根據以下指示分析這些評論：\n" + userPrompt + "\n\n"
    + "請將分析結果整理成Markdown表格格式，包含適當的欄位標題。"
  }

  /** The report section for block number `k`: the stripped reply, or the failure line. */
  function AnalysisSection(k: nat, reply: AiReply): string {
    match reply
    case AiText(t) => "--- 分析區塊 " + DecimalString(k) + " ---\n" + Strip(t) + "\n\n"
    case AiError(e) => "--- 分析區塊 " + DecimalString(k) + " 失敗：" + e + " ---\n\n"
  }

  /** Block `b` starts at row `i = 20*b`; its prompt names rows `i+1` to `min(i+20, total)`. */
  function AnalysisCall(b: nat, block: seq<Row>, total: nat, userPrompt: string, renderCsv: seq<Row> -> string): string {
    AnalysisPrompt(b * AnalysisBlockSize + 1, Min(b * AnalysisBlockSize + AnalysisBlockSize, total), renderCsv(block), userPrompt)
  }

  /** The prompts sent, one per block, in block order. */
  function AnalysisCalls(blocks: seq<seq<Row>>, total: nat, userPrompt: string, renderCsv: seq<Row> -> string): seq<string> {
    seq(|blocks|, b requires 0 <= b < |blocks| => AnalysisCall(b, blocks[b], total, userPrompt, renderCsv))
  }

  /** The sections of the report: block `b`, numbered `b+1`, gets the section of the reply to its prompt. */
  function AnalysisSections(calls: seq<string>, ai: string -> AiReply): seq<string> {
    seq(|calls|, b requires 0 <= b < |calls| => AnalysisSection(b + 1, ai(calls[b])))
  }

  /** The text the PDF report parses a table from: the report, or a stand-in when it is empty. */
  function PdfContent(text: string): string {
    if text == "" then "No content provided." else text
  }

  /**
    What `analyze_comments_with_ai` returns, with the prompts it sent: the text, the PDF
    file name when one was written, and the table the PDF would show (the strict
    `parse_markdown_table` of app.py, drawn only when it finds rows).
   */
  datatype Analysis = Analysis(text: string, pdf: Option<string>, table: Option<Table>, calls: seq<string>)

  function Analyze(clientReady: bool, csv: Option<seq<Row>>, userPrompt: string, ai: string -> AiReply,
                   renderCsv: seq<Row> -> string, makePdf: string -> Option<string>): Analysis
  {
    if !clientReady then Analysis(NoClientMessage, None, None, [])
    else if csv.None? then Analysis(NoCsvMessage, None, None, [])
    else if |csv.value| == 0 then Analysis(EmptyCsvMessage, None, None, [])
    else
      var rows := csv.value;
      var calls := AnalysisCalls(Chunks(rows, AnalysisBlockSize), |rows|, userPrompt, renderCsv);
      var text := Concat(AnalysisSections(calls, ai));
      Analysis(text, makePdf(text), StrictTable(PdfContent(text)), calls)
  }

  /**
    The early returns: without a client, without the CSV file, or with an empty one, the
    answer is the matching message, no PDF, and no call to the model; in every other case
    the model is called at least once.
   */
  lemma AnalyzeEarlyReturns(clientReady: bool, csv: Option<seq<Row>>, userPrompt: string, ai: string -> AiReply,
                            renderCsv: seq<Row> -> string, makePdf: string -> Option<string>)
    ensures var r := Analyze(clientReady, csv, userPrompt, ai, renderCsv, makePdf);
      (r.calls == [] <==> !clientReady || csv.None? || |csv.value| == 0)
      && (r.calls == [] ==> r.pdf == None && r.table == None)
      && (!clientReady ==> r.text == NoClientMessage)
      && (clientReady && csv.None? ==> r.text == NoCsvMessage)
      && (clientReady && csv.Some? && |csv.value| == 0 ==> r.text == EmptyCsvMessage)
  {
    if clientReady && csv.Some? && |csv.value| > 0 {
      ChunksPartition(csv.value, AnalysisBlockSize);
    }
  }

  /**
    The blocks partition the rows, and block `b` is `rows[i:min(i+20, total)]` with
    `i = 20*b < total`; its prompt names rows `i+1` to `min(i+20, total)` and carries that
    block's CSV.
   */
  lemma AnalysisBlocks(rows: seq<Row>, userPrompt: string, renderCsv: seq<Row> -> string)
    ensures Flatten(Chunks(rows, AnalysisBlockSize)) == rows
    ensures var calls := AnalysisCalls(Chunks(rows, AnalysisBlockSize), |rows|, userPrompt, renderCsv);
      |calls| == |Chunks(rows, AnalysisBlockSize)|
      && forall b :: 0 <= b < |calls| ==>
           b * AnalysisBlockSize < |rows|
           && calls[b] == AnalysisPrompt(b * AnalysisBlockSize + 1, Min(b * AnalysisBlockSize + AnalysisBlockSize, |rows|),
                                         renderCsv(rows[b * AnalysisBlockSize..Min(b * AnalysisBlockSize + AnalysisBlockSize, |rows|)]),
                                         userPrompt)
  {
    ChunksPartition(rows, AnalysisBlockSize);
    var blocks := Chunks(rows, AnalysisBlockSize);
    forall b | 0 <= b < |blocks|
      ensures b * AnalysisBlockSize < |rows|
      ensures blocks[b] == rows[b * AnalysisBlockSize..Min(b * AnalysisBlockSize + AnalysisBlockSize, |rows|)]
    {
      ChunkAt(rows, AnalysisBlockSize, b);
    }
  }

  /**
    Every block adds exactly one section, in block order, whatever the model answers: a
    failed call gives the failure line for that block and the loop goes on. The report is
    the sections one after another, so the text after `j` blocks is a prefix of it.
   */
  lemma AnalysisReport(calls: seq<string>, ai: string -> AiReply)
    ensures var sections := AnalysisSections(calls, ai);
      |sections| == |calls|
      && (forall b :: 0 <= b < |calls| ==>
            (ai(calls[b]).AiText? ==> sections[b] == "--- 分析區塊 " + DecimalString(b + 1) + " ---\n" + Strip(ai(calls[b]).text) + "\n\n")
            && (ai(calls[b]).AiError? ==> sections[b] == "--- 分析區塊 " + DecimalString(b + 1) + " 失敗：" + ai(calls[b]).message + " ---\n\n")
            && StartsWith(sections[b], "--- 分析區塊 " + DecimalString(b + 1) + " "))
      && (forall j :: 0 <= j <= |calls| ==> StartsWith(Concat(sections), Concat(sections[..j])))
  {
    var sections := AnalysisSections(calls, ai);
    forall j | 0 <= j <= |calls|
      ensures StartsWith(Concat(sections), Concat(sections[..j]))
    {
      ConcatPrefix(sections, j);
    }
  }

  /** The loop `for i in range(0, total_rows, 20)` of `analyze_comments_with_ai`, then the PDF. */
  method AnalyzeCommentsWithAi(clientReady: bool, csv: Option<seq<Row>>, userPrompt: string, ai: string -> AiReply,
                               renderCsv: seq<Row> -> string, makePdf: string -> Option<string>)
    returns (r: Analysis)
    ensures r == Analyze(clientReady, csv, userPrompt, ai, renderCsv, makePdf)
  {
    if !clientReady {
      return Analysis(NoClientMessage, None, None, []);
    }
    if csv.None? {
      return Analysis(NoCsvMessage, None, None, []);
    }
    var rows := csv.value;
    if |rows| == 0 {
      return Analysis(EmptyCsvMessage, None, None, []);
    }
    var calls, cumulative := AnalysisLoop(rows, userPrompt, ai, renderCsv);
    return Analysis(cumulative, makePdf(cumulative), StrictTable(PdfContent(cumulative)), calls);
  }

  /** The block loop itself: the prompts it sends and the report text it builds. */
  method AnalysisLoop(rows: seq<Row>, userPrompt: string, ai: string -> AiReply, renderCsv: seq<Row> -> string)
    returns (calls: seq<string>, cumulative: string)
    ensures calls == AnalysisCalls(Chunks(rows, AnalysisBlockSize), |rows|, userPrompt, renderCsv)
    ensures cumulative == Concat(AnalysisSections(calls, ai))
  {
    cumulative := "";
    calls := [];
    ghost var done: seq<seq<Row>> := [];
    var i: nat := 0;
    assert rows[0..] == rows;
    while i < |rows|
      invariant AnalysisProgress(rows, i, done, calls, cumulative, userPrompt, ai, renderCsv)
      decreases |rows| - i
    {
      i, done, calls, cumulative := AnalysisStep(rows, i, done, calls, cumulative, userPrompt, ai, renderCsv);
    }
    assert rows[Min(i, |rows|)..] == [];
  }

  /**
    The loop invariant: `i = 20*b` after `b` blocks, which are the first `b` chunks;
    their prompts were sent and their sections written, in order.
   */
  ghost predicate AnalysisProgress(rows: seq<Row>, i: nat, done: seq<seq<Row>>, calls: seq<string>, cumulative: string,
                                   userPrompt: string, ai: string -> AiReply, renderCsv: seq<Row> -> string)
  {
    && i == |done| * AnalysisBlockSize
    && done + Chunks(rows[Min(i, |rows|)..], AnalysisBlockSize) == Chunks(rows, AnalysisBlockSize)
    && calls == AnalysisCalls(done, |rows|, userPrompt, renderCsv)
    && cumulative == Concat(AnalysisSections(calls, ai))
  }

  /** One pass of the loop: slice the block at row `i`, prompt for it, ask, and add its section. */
  method AnalysisStep(rows: seq<Row>, i: nat, ghost done: seq<seq<Row>>, calls: seq<string>, cumulative: string,
                      userPrompt: string, ai: string -> AiReply, renderCsv: seq<Row> -> string)
    returns (i': nat, ghost done': seq<seq<Row>>, calls': seq<string>, cumulative': string)
    requires i < |rows|
    requires AnalysisProgress(rows, i, done, calls, cumulative, userPrompt, ai, renderCsv)
    ensures i' == i + AnalysisBlockSize
    ensures AnalysisProgress(rows, i', done', calls', cumulative', userPrompt, ai, renderCsv)
  {
    ChunksCounted(rows, AnalysisBlockSize, i, done);
    var total := |rows|;
    var block := Slice(rows, i, AnalysisBlockSize);
    var prompt := AnalysisPrompt(i + 1, Min(i + AnalysisBlockSize, total), renderCsv(block), userPrompt);
    var reply := ai(prompt);
    var k := i / AnalysisBlockSize + 1;
    AnalysisBlockNumber(|done|);
    AnalysisCallAt(i, |done|, block, total, userPrompt, renderCsv);
    calls' := calls + [prompt];
    cumulative' := cumulative + AnalysisSection(k, reply);
    AnalysisCallsSnoc(done, block, total, userPrompt, renderCsv);
    AnalysisSectionsSnoc(calls, prompt, ai);
    ConcatSnoc(AnalysisSections(calls, ai), AnalysisSection(k, reply));
    done' := done + [block];
    i' := i + AnalysisBlockSize;
  }

  lemma AnalysisCallAt(i: nat, b: nat, block: seq<Row>, total: nat, userPrompt: string, renderCsv: seq<Row> -> string)
    requires i == b * AnalysisBlockSize
    ensures AnalysisPrompt(i + 1, Min(i + AnalysisBlockSize, total), renderCsv(block), userPrompt)
            == AnalysisCall(b, block, total, userPrompt, renderCsv)
  {
  }

  lemma AnalysisCallsSnoc(done: seq<seq<Row>>, block: seq<Row>, total: nat, userPrompt: string, renderCsv: seq<Row> -> string)
    ensures AnalysisCalls(done + [block], total, userPrompt, renderCsv)
            == AnalysisCalls(done, total, userPrompt, renderCsv) + [AnalysisCall(|done|, block, total, userPrompt, renderCsv)]
  {
  }

  lemma AnalysisSectionsSnoc(calls: seq<string>, prompt: string, ai: string -> AiReply)
    ensures AnalysisSections(calls + [prompt], ai) == AnalysisSections(calls, ai) + [AnalysisSection(|calls| + 1, ai(prompt))]
  {
  }

  /** `i//20+1` for the block that starts at row `i = 20*b` is `b+1`. */
  lemma AnalysisBlockNumber(b: nat)
    ensures (b * AnalysisBlockSize) / AnalysisBlockSize + 1 == b + 1
  {
    assert b * 20 / 20 == b;
  }

  // ---------------------------------------------------------------------------
  // gradio_handler (qreview_ui.py)

  const UiBlockSize: nat := 30

  /** The prompt for the uploaded rows `first` to `last`, counted from 1. */
  function UiPrompt(first: nat, last: nat, blockCsv: string, userPrompt: string): string {
    "以下是CSV資料第 " + DecimalString(first) + " 到 " + DecimalString(last) + " 筆：\n"
    + blockCsv + "\n\n請根據以下規則進行分析並產出報表：\n" + userPrompt
  }

  /** The question asked when nothing was uploaded. */
  function NoUploadPrompt(userPrompt: string): string {
    "未上傳 CSV 檔案。" + "\n\n" + userPrompt
  }

  /** The report section for block number `k`. */
  function UiSection(k: nat, reply: string): string {
    "區塊 " + DecimalString(k) + ":\n" + Strip(reply) + "\n\n"
  }

  /** Block `b` starts at row `i = 30*b`; its prompt names rows `i+1` to `min(i+30, total)`. */
  function UiCall(b: nat, block: seq<Row>, total: nat, userPrompt: string, renderCsv: seq<Row> -> string): string {
    UiPrompt(b * UiBlockSize + 1, Min(b * UiBlockSize + UiBlockSize, total), renderCsv(block), userPrompt)
  }

  function UiCalls(blocks: seq<seq<Row>>, total: nat, userPrompt: string, renderCsv: seq<Row> -> string): seq<string> {
    seq(|blocks|, b requires 0 <= b < |blocks| => UiCall(b, blocks[b], total, userPrompt, renderCsv))
  }

  /** The prompts of the first `m` blocks are the first `m` prompts. */
  lemma UiCallsPrefix(blocks: seq<seq<Row>>, m: nat, total: nat, userPrompt: string, renderCsv: seq<Row> -> string)
    requires m <= |blocks|
    ensures UiCalls(blocks, total, userPrompt, renderCsv)[..m] == UiCalls(blocks[..m], total, userPrompt, renderCsv)
  {
  }

  /** Every prompt in `calls` was answered with text: none of those calls raised. */
  predicate Answered(calls: seq<string>, llm: string -> AiReply) {
    forall b :: 0 <= b < |calls| ==> llm(calls[b]).AiText?
  }

  /**
    The index of the first prompt whose call raises, or the number of prompts when none
    does. `gradio_handler` has no `try` around the call, so that is where it stops.
   */
  function FirstFailure(calls: seq<string>, llm: string -> AiReply): (k: nat)
    ensures k <= |calls|
    ensures k < |calls| ==> llm(calls[k]).AiError?
    decreases |calls|
  {
    if |calls| == 0 then 0
    else
      var n := |calls| - 1;
      var k := FirstFailure(calls[..n], llm);
      if k < n then k
      else if llm(calls[n]).AiError? then n
      else n + 1
  }

  /** No call fails exactly when the first failure lies past the end, and every call before it is answered. */
  lemma {:induction false} FirstFailureAnswered(calls: seq<string>, llm: string -> AiReply)
    ensures FirstFailure(calls, llm) == |calls| <==> Answered(calls, llm)
    ensures Answered(calls[..FirstFailure(calls, llm)], llm)
    decreases |calls|
  {
    if |calls| > 0 {
      var n := |calls| - 1;
      var before := calls[..n];
      FirstFailureAnswered(before, llm);
      var k := FirstFailure(before, llm);
      assert before[..k] == calls[..k];
      if k < n {
        assert llm(calls[k]).AiError?;
      } else if llm(calls[n]).AiError? {
        assert before == calls[..n];
      } else {
        assert calls[..|calls|] == calls;
        forall b | 0 <= b < |calls| ensures llm(calls[b]).AiText? {
          if b < n {
            assert calls[b] == before[b];
          }
        }
      }
    }
  }

  /** A call that fails after `m` answered ones is the first failure. */
  lemma {:induction false} FirstFailureAt(calls: seq<string>, llm: string -> AiReply, m: nat)
    requires m < |calls|
    requires Answered(calls[..m], llm)
    requires llm(calls[m]).AiError?
    ensures FirstFailure(calls, llm) == m
    decreases |calls|
  {
    var n := |calls| - 1;
    var before := calls[..n];
    if n == m {
      FirstFailureAnswered(before, llm);
    } else {
      assert before[..m] == calls[..m];
      FirstFailureAt(before, llm, m);
    }
  }

  /**
    What a run that stops at its first failure has sent: the prompts up to and including
    the failing one, every earlier one answered. It stops early exactly when some prompt
    fails.
   */
  lemma FirstFailureSent(all: seq<string>, llm: string -> AiReply)
    ensures var k := FirstFailure(all, llm);
      (k < |all| <==> !Answered(all, llm))
      && (k < |all| ==>
            var sent := all[..k + 1];
            0 < |sent| <= |all| && sent == all[..|sent|]
            && Answered(sent[..|sent| - 1], llm)
            && llm(sent[|sent| - 1]) == AiError(llm(all[k]).message))
  {
    FirstFailureAnswered(all, llm);
    var k := FirstFailure(all, llm);
    if k < |all| {
      var sent := all[..k + 1];
      assert sent[..k] == all[..k];
    }
  }

  /** A failing prompt sent after answered ones is the first failure of any run that starts with them. */
  lemma FirstFailureAfter(all: seq<string>, calls: seq<string>, prompt: string, llm: string -> AiReply, message: string)
    requires |calls| < |all| && all[..|calls| + 1] == calls + [prompt]
    requires Answered(calls, llm) && llm(prompt) == AiError(message)
    ensures var k := FirstFailure(all, llm);
      k < |all| && calls + [prompt] == all[..k + 1] && llm(all[k]) == AiError(message)
  {
    var m := |calls|;
    assert all[..m + 1][..m] == all[..m];
    assert all[m] == all[..m + 1][m];
    FirstFailureAt(all, llm, m);
  }

  /** The sections of the answered prompts, `"區塊 b+1:\n<stripped reply>\n\n"` for prompt `b`. */
  function UiSections(calls: seq<string>, llm: string -> AiReply): seq<string>
    requires Answered(calls, llm)
  {
    seq(|calls|, b requires 0 <= b < |calls| => UiSection(b + 1, llm(calls[b]).text))
  }

  /** `block_responses`: the report as it stood after each block. */
  function Snapshots(sections: seq<string>): seq<string> {
    seq(|sections|, j requires 0 <= j < |sections| => Concat(sections[..j + 1]))
  }

  /**
    What `gradio_handler` returns — the text and the PDF file name — together with the
    snapshots it keeps, the prompts it sent and the table `generate_pdf` would draw.
   */
  datatype UiResult = UiResult(text: string, pdf: string, table: Option<Table>, snapshots: seq<string>, calls: seq<string>)

  /**
    How `gradio_handler` ends: it returns, or the exception of a failed model call (a
    service error, or `.strip()` on a reply without text) leaves it, after the prompts in
    `calls` were sent. Nothing is written then.
   */
  datatype UiOutcome = UiReturned(result: UiResult) | UiRaised(calls: seq<string>, message: string)

  function Handler(csv: Option<seq<Row>>, userPrompt: string, llm: string -> AiReply,
                   renderCsv: seq<Row> -> string, stamp: string): UiOutcome
  {
    if csv.None? then
      var prompt := NoUploadPrompt(userPrompt);
      match llm(prompt)
      case AiError(message) => UiRaised([prompt], message)
      case AiText(reply) =>
        var text := Strip(reply);
        UiReturned(UiResult(text, UiPdfFiles(stamp).returned, PdfTable(None, Some(text)), [], [prompt]))
    else
      var rows := csv.value;
      BlocksOutcome(UiCalls(Chunks(rows, UiBlockSize), |rows|, userPrompt, renderCsv), llm, stamp)
  }

  /** How the block loop over the prompts `calls` ends: its first failed call raises, otherwise the report is returned. */
  function BlocksOutcome(calls: seq<string>, llm: string -> AiReply, stamp: string): UiOutcome {
    var k := FirstFailure(calls, llm);
    if k < |calls| then UiRaised(calls[..k + 1], llm(calls[k]).message)
    else
      FirstFailureAnswered(calls, llm);
      var sections := UiSections(calls, llm);
      var text := Concat(sections);
      UiReturned(UiResult(text, UiPdfFiles(stamp).returned, PdfTable(None, Some(text)), Snapshots(sections), calls))
  }

  /**
    The block loop raises exactly when one of its prompts fails, after sending the prompts
    up to and including the first failing one, every earlier one answered.
   */
  lemma BlocksRaise(calls: seq<string>, llm: string -> AiReply, stamp: string)
    ensures var r := BlocksOutcome(calls, llm, stamp);
      (r.UiRaised? <==> !Answered(calls, llm))
      && (r.UiRaised? ==>
            0 < |r.calls| <= |calls| && r.calls == calls[..|r.calls|]
            && Answered(r.calls[..|r.calls| - 1], llm)
            && llm(r.calls[|r.calls| - 1]) == AiError(r.message))
  {
    FirstFailureSent(calls, llm);
  }

  /**
    When the handler returns with an upload: the 30-row blocks partition the rows, block
    `b` is `rows[i:i+30]` with `i = 30*b`, its prompt names rows `i+1` to
    `min(i+30, total)`, every prompt was answered, and the report is its section
    `"區塊 b+1:\n<reply>\n\n"` after those of the blocks before it. Without one, a single
    question is asked and its stripped reply is the text.
   */
  lemma HandlerBlocks(csv: Option<seq<Row>>, userPrompt: string, llm: string -> AiReply,
                      renderCsv: seq<Row> -> string, stamp: string)
    ensures var r := Handler(csv, userPrompt, llm, renderCsv, stamp);
      csv.None? && r.UiReturned? ==>
        r.result.calls == [NoUploadPrompt(userPrompt)]
        && llm(r.result.calls[0]).AiText? && r.result.text == Strip(llm(r.result.calls[0]).text)
    ensures csv.Some? ==> Flatten(Chunks(csv.value, UiBlockSize)) == csv.value
    ensures var r := Handler(csv, userPrompt, llm, renderCsv, stamp);
      csv.Some? && r.UiReturned? ==>
        r.result.calls == UiCalls(Chunks(csv.value, UiBlockSize), |csv.value|, userPrompt, renderCsv)
        && |r.result.calls| == |Chunks(csv.value, UiBlockSize)|
        && Answered(r.result.calls, llm)
        && r.result.text == Concat(UiSections(r.result.calls, llm))
        && forall b :: 0 <= b < |r.result.calls| ==>
             b * UiBlockSize < |csv.value|
             && r.result.calls[b] == UiPrompt(b * UiBlockSize + 1, Min(b * UiBlockSize + UiBlockSize, |csv.value|),
                                              renderCsv(csv.value[b * UiBlockSize..Min(b * UiBlockSize + UiBlockSize, |csv.value|)]),
                                              userPrompt)
             && UiSections(r.result.calls, llm)[b] == "區塊 " + DecimalString(b + 1) + ":\n" + Strip(llm(r.result.calls[b]).text) + "\n\n"
  {
    if csv.Some? {
      var rows := csv.value;
      var calls := UiCalls(Chunks(rows, UiBlockSize), |rows|, userPrompt, renderCsv);
      UiCallsShape(rows, userPrompt, renderCsv);
      var r := Handler(csv, userPrompt, llm, renderCsv, stamp);
      if r.UiReturned? {
        FirstFailureAnswered(calls, llm);
        assert r.result.calls == calls && r.result.text == Concat(UiSections(calls, llm));
        UiSectionsAt(calls, llm);
      }
    }
  }

  /**
    The handler raises exactly when one of its model calls fails. Without an upload that
    is the single question. With one, the prompts sent are those of the blocks up to and
    including the first failing one: every earlier prompt was answered, and the exception
    is the last call's.
   */
  lemma HandlerRaises(csv: Option<seq<Row>>, userPrompt: string, llm: string -> AiReply,
                      renderCsv: seq<Row> -> string, stamp: string)
    ensures var r := Handler(csv, userPrompt, llm, renderCsv, stamp);
      csv.None? ==>
        (r.UiRaised? <==> llm(NoUploadPrompt(userPrompt)).AiError?)
        && (r.UiRaised? ==> r.calls == [NoUploadPrompt(userPrompt)] && llm(r.calls[0]) == AiError(r.message))
    ensures var r := Handler(csv, userPrompt, llm, renderCsv, stamp);
      csv.Some? ==>
        var all := UiCalls(Chunks(csv.value, UiBlockSize), |csv.value|, userPrompt, renderCsv);
        (r.UiRaised? <==> !Answered(all, llm))
        && (r.UiRaised? ==>
              0 < |r.calls| <= |all| && r.calls == all[..|r.calls|]
              && Answered(r.calls[..|r.calls| - 1], llm)
              && llm(r.calls[|r.calls| - 1]) == AiError(r.message))
  {
    if csv.Some? {
      BlocksRaise(UiCalls(Chunks(csv.value, UiBlockSize), |csv.value|, userPrompt, renderCsv), llm, stamp);
    }
  }

  /** The prompt of block `b` names rows `30*b + 1` to `min(30*b + 30, n)` and carries exactly those rows. */
  lemma UiCallsShape(rows: seq<Row>, userPrompt: string, renderCsv: seq<Row> -> string)
    ensures Flatten(Chunks(rows, UiBlockSize)) == rows
    ensures var calls := UiCalls(Chunks(rows, UiBlockSize), |rows|, userPrompt, renderCsv);
      |calls| == |Chunks(rows, UiBlockSize)|
      && forall b :: 0 <= b < |calls| ==>
           b * UiBlockSize < |rows|
           && calls[b] == UiPrompt(b * UiBlockSize + 1, Min(b * UiBlockSize + UiBlockSize, |rows|),
                                   renderCsv(rows[b * UiBlockSize..Min(b * UiBlockSize + UiBlockSize, |rows|)]),
                                   userPrompt)
  {
    ChunksPartition(rows, UiBlockSize);
    var blocks := Chunks(rows, UiBlockSize);
    forall b | 0 <= b < |blocks|
      ensures b * UiBlockSize < |rows|
      ensures blocks[b] == rows[b * UiBlockSize..Min(b * UiBlockSize + UiBlockSize, |rows|)]
    {
      ChunkAt(rows, UiBlockSize, b);
    }
  }

  /** Section `b` of the report is headed by block number `b + 1` and holds the stripped reply to prompt `b`. */
  lemma UiSectionsAt(calls: seq<string>, llm: string -> AiReply)
    requires Answered(calls, llm)
    ensures |UiSections(calls, llm)| == |calls|
    ensures forall b :: 0 <= b < |calls| ==>
      UiSections(calls, llm)[b] == "區塊 " + DecimalString(b + 1) + ":\n" + Strip(llm(calls[b]).text) + "\n\n"
  {
  }

  /**
    `block_responses[j]` is the report after `j+1` blocks: each snapshot is the one before
    it followed by one more section, so each is a prefix of the next, and the last is the
    final report.
   */
  lemma SnapshotsGrow(sections: seq<string>)
    ensures |Snapshots(sections)| == |sections|
    ensures |sections| > 0 ==> Snapshots(sections)[|sections| - 1] == Concat(sections)
    ensures forall j :: 0 < j < |sections| ==> Snapshots(sections)[j] == Snapshots(sections)[j - 1] + sections[j]
    ensures forall j :: 0 <= j < |sections| ==> StartsWith(Concat(sections), Snapshots(sections)[j])
  {
    var snaps := Snapshots(sections);
    if |sections| > 0 {
      assert sections[..|sections|] == sections;
    }
    forall j | 0 < j < |sections|
      ensures snaps[j] == snaps[j - 1] + sections[j]
    {
      TakeSnoc(sections, j);
      ConcatSnoc(sections[..j], sections[j]);
    }
    forall j | 0 <= j < |sections|
      ensures StartsWith(Concat(sections), snaps[j])
    {
      ConcatPrefix(sections, j + 1);
    }
  }

  /**
    `gradio_handler`: the block loop when rows were uploaded, the single question
    otherwise; a failed call ends it with the call's exception.
   */
  method GradioHandler(csv: Option<seq<Row>>, userPrompt: string, llm: string -> AiReply,
                       renderCsv: seq<Row> -> string, stamp: string)
    returns (r: UiOutcome)
    ensures r == Handler(csv, userPrompt, llm, renderCsv, stamp)
  {
    if csv.None? {
      var prompt := NoUploadPrompt(userPrompt);
      var response := llm(prompt);
      if response.AiError? {
        return UiRaised([prompt], response.message);
      }
      var responseText := Strip(response.text);
      return UiReturned(UiResult(responseText, UiPdfFiles(stamp).returned, PdfTable(None, Some(responseText)), [], [prompt]));
    }
    var rows := csv.value;
    var calls, cumulative, blockResponses, error := UiLoop(rows, userPrompt, llm, renderCsv);
    if error.Some? {
      return UiRaised(calls, error.value);
    }
    return UiReturned(UiResult(cumulative, UiPdfFiles(stamp).returned, PdfTable(None, Some(cumulative)), blockResponses, calls));
  }

  /**
    The block loop itself: the prompts it sends, the report text and its snapshots. The
    first failed call stops it with that call's exception, after the prompts of the blocks
    up to that one were sent.
   */
  method UiLoop(rows: seq<Row>, userPrompt: string, llm: string -> AiReply, renderCsv: seq<Row> -> string)
    returns (calls: seq<string>, cumulative: string, blockResponses: seq<string>, error: Option<string>)
    ensures var all := UiCalls(Chunks(rows, UiBlockSize), |rows|, userPrompt, renderCsv);
      var k := FirstFailure(all, llm);
      (error.Some? <==> k < |all|)
      && calls == (if k < |all| then all[..k + 1] else all)
      && (k < |all| ==> llm(all[k]) == AiError(error.value))
      && (k == |all| ==>
            Answered(all, llm)
            && cumulative == Concat(UiSections(all, llm))
            && blockResponses == Snapshots(UiSections(all, llm)))
  {
    cumulative := "";
    blockResponses := [];
    calls := [];
    error := None;
    ghost var done: seq<seq<Row>> := [];
    var i: nat := 0;
    assert rows[0..] == rows;
    while i < |rows|
      invariant UiProgress(rows, i, done, calls, cumulative, blockResponses, userPrompt, llm, renderCsv)
      decreases |rows| - i
    {
      var block := Slice(rows, i, UiBlockSize);
      var prompt := UiPrompt(i + 1, Min(i + UiBlockSize, |rows|), renderCsv(block), userPrompt);
      var response := llm(prompt);
      if response.AiError? {
        UiRaisedAt(rows, i, done, calls, cumulative, blockResponses, userPrompt, llm, renderCsv, prompt, response.message);
        calls := calls + [prompt];
        error := Some(response.message);
        return;
      }
      i, done, calls, cumulative, blockResponses :=
        UiStep(rows, i, done, calls, cumulative, blockResponses, userPrompt, llm, renderCsv, prompt, response.text);
    }
    UiFinished(rows, i, done, calls, cumulative, blockResponses, userPrompt, llm, renderCsv);
  }

  /** Once the loop has passed the last row, every block's prompt was sent and answered. */
  lemma UiFinished(rows: seq<Row>, i: nat, done: seq<seq<Row>>, calls: seq<string>, cumulative: string,
                   blockResponses: seq<string>, userPrompt: string, llm: string -> AiReply, renderCsv: seq<Row> -> string)
    requires i >= |rows|
    requires UiProgress(rows, i, done, calls, cumulative, blockResponses, userPrompt, llm, renderCsv)
    ensures var all := UiCalls(Chunks(rows, UiBlockSize), |rows|, userPrompt, renderCsv);
      calls == all && FirstFailure(all, llm) == |all|
  {
    assert rows[Min(i, |rows|)..] == [];
    assert done + [] == done;
    FirstFailureAnswered(calls, llm);
  }

  /**
    The loop invariant: `i = 30*b` after `b` blocks, which are the first `b` chunks; their
    prompts were sent and answered, their sections written in order, and one snapshot kept
    for each.
   */
  ghost predicate UiProgress(rows: seq<Row>, i: nat, done: seq<seq<Row>>, calls: seq<string>, cumulative: string,
                             blockResponses: seq<string>, userPrompt: string, llm: string -> AiReply, renderCsv: seq<Row> -> string)
  {
    && i == |done| * UiBlockSize
    && done + Chunks(rows[Min(i, |rows|)..], UiBlockSize) == Chunks(rows, UiBlockSize)
    && calls == UiCalls(done, |rows|, userPrompt, renderCsv)
    && Answered(calls, llm)
    && cumulative == Concat(UiSections(calls, llm))
    && blockResponses == Snapshots(UiSections(calls, llm))
  }

  /**
    When the call for the block at row `i` fails, the prompts sent so far with that one
    are the first prompts of the whole run, and that call is its first failure.
   */
  lemma UiRaisedAt(rows: seq<Row>, i: nat, done: seq<seq<Row>>, calls: seq<string>, cumulative: string,
                   blockResponses: seq<string>, userPrompt: string, llm: string -> AiReply, renderCsv: seq<Row> -> string,
                   prompt: string, message: string)
    requires i < |rows|
    requires UiProgress(rows, i, done, calls, cumulative, blockResponses, userPrompt, llm, renderCsv)
    requires prompt == UiPrompt(i + 1, Min(i + UiBlockSize, |rows|), renderCsv(Slice(rows, i, UiBlockSize)), userPrompt)
    requires llm(prompt) == AiError(message)
    ensures var all := UiCalls(Chunks(rows, UiBlockSize), |rows|, userPrompt, renderCsv);
      var k := FirstFailure(all, llm);
      k < |all| && calls + [prompt] == all[..k + 1] && llm(all[k]) == AiError(message)
  {
    UiCallsSent(rows, i, done, calls, userPrompt, renderCsv, prompt);
    FirstFailureAfter(UiCalls(Chunks(rows, UiBlockSize), |rows|, userPrompt, renderCsv), calls, prompt, llm, message);
  }

  /** The prompts sent before the block at row `i`, with that block's, are the first prompts of the run. */
  lemma UiCallsSent(rows: seq<Row>, i: nat, done: seq<seq<Row>>, calls: seq<string>, userPrompt: string,
                    renderCsv: seq<Row> -> string, prompt: string)
    requires i < |rows| && i == |done| * UiBlockSize
    requires done + Chunks(rows[Min(i, |rows|)..], UiBlockSize) == Chunks(rows, UiBlockSize)
    requires calls == UiCalls(done, |rows|, userPrompt, renderCsv)
    requires prompt == UiPrompt(i + 1, Min(i + UiBlockSize, |rows|), renderCsv(Slice(rows, i, UiBlockSize)), userPrompt)
    ensures var all := UiCalls(Chunks(rows, UiBlockSize), |rows|, userPrompt, renderCsv);
      |calls| < |all| && all[..|calls| + 1] == calls + [prompt]
  {
    ChunksCounted(rows, UiBlockSize, i, done);
    var block := Slice(rows, i, UiBlockSize);
    var blocks := Chunks(rows, UiBlockSize);
    var m := |done|;
    assert blocks[..m + 1] == done + [block];
    UiCallAt(i, m, block, |rows|, userPrompt, renderCsv);
    UiCallsSnoc(done, block, |rows|, userPrompt, renderCsv);
    UiCallsPrefix(blocks, m + 1, |rows|, userPrompt, renderCsv);
  }

  /**
    One pass of the loop, once the block at row `i` was sliced, prompted for and answered:
    add its section and keep the snapshot.
   */
  method UiStep(rows: seq<Row>, i: nat, ghost done: seq<seq<Row>>, calls: seq<string>, cumulative: string,
                blockResponses: seq<string>, userPrompt: string, llm: string -> AiReply, renderCsv: seq<Row> -> string,
                prompt: string, response: string)
    returns (i': nat, ghost done': seq<seq<Row>>, calls': seq<string>, cumulative': string, blockResponses': seq<string>)
    requires i < |rows|
    requires UiProgress(rows, i, done, calls, cumulative, blockResponses, userPrompt, llm, renderCsv)
    requires prompt == UiPrompt(i + 1, Min(i + UiBlockSize, |rows|), renderCsv(Slice(rows, i, UiBlockSize)), userPrompt)
    requires llm(prompt) == AiText(response)
    ensures i' == i + UiBlockSize
    ensures UiProgress(rows, i', done', calls', cumulative', blockResponses', userPrompt, llm, renderCsv)
  {
    ChunksCounted(rows, UiBlockSize, i, done);
    var total := |rows|;
    var block := Slice(rows, i, UiBlockSize);
    var blockResponse := Strip(response);
    var k := i / UiBlockSize + 1;
    UiBlockNumber(|done|);
    UiCallAt(i, |done|, block, total, userPrompt, renderCsv);
    calls' := calls + [prompt];
    var section := "區塊 " + DecimalString(k) + ":\n" + blockResponse + "\n\n";
    cumulative' := cumulative + section;
    blockResponses' := blockResponses + [cumulative'];
    UiCallsSnoc(done, block, total, userPrompt, renderCsv);
    UiSectionsSnoc(calls, prompt, llm);
    var before := UiSections(calls, llm);
    ConcatSnoc(before, section);
    SnapshotsSnoc(before, section);
    done' := done + [block];
    i' := i + UiBlockSize;
  }

  /** `i//30+1` for the block that starts at row `i = 30*b` is `b+1`. */
  lemma UiBlockNumber(b: nat)
    ensures (b * UiBlockSize) / UiBlockSize + 1 == b + 1
  {
    assert b * 30 / 30 == b;
  }

  lemma UiCallAt(i: nat, b: nat, block: seq<Row>, total: nat, userPrompt: string, renderCsv: seq<Row> -> string)
    requires i == b * UiBlockSize
    ensures UiPrompt(i + 1, Min(i + UiBlockSize, total), renderCsv(block), userPrompt)
            == UiCall(b, block, total, userPrompt, renderCsv)
  {
  }

  lemma UiCallsSnoc(done: seq<seq<Row>>, block: seq<Row>, total: nat, userPrompt: string, renderCsv: seq<Row> -> string)
    ensures UiCalls(done + [block], total, userPrompt, renderCsv)
            == UiCalls(done, total, userPrompt, renderCsv) + [UiCall(|done|, block, total, userPrompt, renderCsv)]
  {
  }

  lemma UiSectionsSnoc(calls: seq<string>, prompt: string, llm: string -> AiReply)
    requires Answered(calls, llm) && llm(prompt).AiText?
    ensures Answered(calls + [prompt], llm)
    ensures UiSections(calls + [prompt], llm) == UiSections(calls, llm) + [UiSection(|calls| + 1, llm(prompt).text)]
  {
    assert forall b :: 0 <= b < |calls| ==> (calls + [prompt])[b] == calls[b];
  }

  lemma SnapshotsSnoc(sections: seq<string>, s: string)
    ensures Snapshots(sections + [s]) == Snapshots(sections) + [Concat(sections + [s])]
  {
    var after := sections + [s];
    assert after[..|after|] == after;
    forall j | 0 <= j < |sections|
      ensures Snapshots(after)[j] == Snapshots(sections)[j]
    {
      assert after[..j + 1] == sections[..j + 1];
    }
  }
}
