/**
  The batch reviewer of game-question word pairs (tests/autogen/qreview/Qreview.py).
  Rows of a CSV are sent to a language model ten at a time. The reply is cut into
  one JSON answer per question, every answer is reconciled with the fixed list of
  seven review items, and the rows are streamed to an output CSV with the item
  columns filled in. The model call and the JSON decoder are parameters.
 */
module Qreview {
  import opened Wrappers
  import opened Strings
  import opened JsonValues
  import opened Chunking

  /** The seven review items of the coding sheet, in order. */
  const Items: seq<string> := ["生活化", "粗俗用語", "延伸討論", "連結生活經驗", "無意義", "簡體字", "備註"]
  const Delimiter: string := "-----"
  const BatchSize: nat := 10
  const Fence: string := "```"

  predicate Distinct(xs: seq<string>) {
    forall i, j :: 0 <= i < j < |xs| ==> xs[i] != xs[j]
  }

  lemma ItemsDistinct()
    ensures Distinct(Items)
  {
  }

  // ---------------------------------------------------------------------------
  // parse_response

  /** The line handling of a fenced reply: drop the opening line, and the last line when it trims to the fence. */
  function DropFenceLines(lines: seq<string>): seq<string> {
    var a := if |lines| > 0 && StartsWith(lines[0], Fence) then lines[1..] else lines;
    if |a| > 0 && Strip(a[|a| - 1]) == Fence then a[..|a| - 1] else a
  }

  /** The text handed to the JSON decoder: the trimmed reply, with a Markdown code fence removed. */
  function StripFence(reply: string): (cleaned: string)
    ensures Bare(cleaned, IsSpace)
    ensures !StartsWith(Strip(reply), Fence) ==> cleaned == Strip(reply)
  {
    var c := Strip(reply);
    TrimIdempotent(reply, IsSpace);
    if StartsWith(c, Fence) then
      var r := Strip(Join("\n", DropFenceLines(SplitLines(c))));
      TrimIdempotent(Join("\n", DropFenceLines(SplitLines(c))), IsSpace);
      r
    else c
  }

  /** The lines of a fenced reply: the opening line "```tag", the body lines and the closing "```". */
  function FencedLines(tag: string, body: seq<string>): seq<string> {
    [Fence + tag] + body + [Fence]
  }

  lemma FencedText(tag: string, body: seq<string>)
    ensures Join("\n", FencedLines(tag, body)) == Fence + tag + "\n" + Join("\n", body + [Fence])
    ensures Join("\n", FencedLines(tag, body)) == Join("\n", [Fence + tag] + body) + "\n" + Fence
  {
    var lines := FencedLines(tag, body);
    assert lines == [Fence + tag] + (body + [Fence]);
    JoinCons("\n", Fence + tag, body + [Fence]);
    assert lines == ([Fence + tag] + body) + [Fence];
    JoinSnoc("\n", [Fence + tag] + body, Fence);
  }

  /** A fenced reply is already trimmed, starts with the fence and splits back into its lines. */
  lemma FencedReply(tag: string, body: seq<string>)
    requires NoLineBreak(tag)
    requires forall i :: 0 <= i < |body| ==> NoLineBreak(body[i])
    ensures Strip(Join("\n", FencedLines(tag, body))) == Join("\n", FencedLines(tag, body))
    ensures StartsWith(Join("\n", FencedLines(tag, body)), Fence)
    ensures SplitLines(Join("\n", FencedLines(tag, body))) == FencedLines(tag, body)
  {
    var lines := FencedLines(tag, body);
    var s := Join("\n", lines);
    FencedText(tag, body);
    assert s[0] == '`' && s[|s| - 1] == '`';
    TrimBare(s, IsSpace);
    assert s[..3] == Fence;
    var opening := Fence + tag;
    assert NoLineBreak(opening) by {
      forall k | 0 <= k < |opening| ensures !IsLineBreak(opening[k]) {
        if k >= 3 {
          assert opening[k] == tag[k - 3];
        }
      }
    }
    forall i | 0 <= i < |lines| ensures NoLineBreak(lines[i]) {
      if 0 < i < |lines| - 1 {
        assert lines[i] == body[i - 1];
      }
    }
    SplitLinesJoin(lines, false);
    assert s + "" == s;
  }

  lemma DropFenceLinesOfFenced(tag: string, body: seq<string>)
    ensures DropFenceLines(FencedLines(tag, body)) == body
  {
    var lines := FencedLines(tag, body);
    assert lines[0][..3] == Fence;
    var a := lines[1..];
    assert a == body + [Fence];
    TrimBare(Fence, IsSpace);
    assert Strip(a[|a| - 1]) == Fence;
    assert a[..|a| - 1] == body;
  }

  /** A reply fenced as "```tag", body lines, "```" is decoded from its body, trimmed. */
  lemma StripFenceOfFenced(tag: string, body: seq<string>)
    requires NoLineBreak(tag)
    requires forall i :: 0 <= i < |body| ==> NoLineBreak(body[i])
    ensures StripFence(Join("\n", FencedLines(tag, body))) == Strip(Join("\n", body))
  {
    var s := Join("\n", FencedLines(tag, body));
    FencedReply(tag, body);
    DropFenceLinesOfFenced(tag, body);
    var c := Strip(s);
    assert c == s;
    assert DropFenceLines(SplitLines(c)) == body;
  }

  /** Python's `if item not in result: result[item] = ""`. */
  function WithDefault(e: Entries, item: string): Entries {
    if HasKey(e, item) then e else e + [(item, JString(""))]
  }

  /** The fill loop over `items`, as a fold from the left. */
  function Filled(e: Entries, items: seq<string>): Entries
    decreases |items|
  {
    if |items| == 0 then e else Filled(WithDefault(e, items[0]), items[1..])
  }

  lemma LookupAppend(e: Entries, k: string, v: Json, q: string)
    requires !HasKey(e, k)
    ensures Lookup(e + [(k, v)], q) == if q == k then Some(v) else Lookup(e, q)
  {
    KeyIndexAppend(e, k, v, q);
  }

  /**
    Filling keeps every member already present (same place, same value) and makes
    every item a key; an item that was missing maps to "", and no other key appears.
   */
  lemma {:induction false} FilledLookup(e: Entries, items: seq<string>, k: string)
    ensures e <= Filled(e, items)
    ensures Lookup(Filled(e, items), k) ==
      if HasKey(e, k) then Lookup(e, k) else if k in items then Some(JString("")) else None
    decreases |items|
  {
    if |items| > 0 {
      var e1 := WithDefault(e, items[0]);
      FilledLookup(e1, items[1..], k);
      if !HasKey(e, items[0]) {
        LookupAppend(e, items[0], JString(""), k);
      }
      assert k in items <==> k == items[0] || k in items[1..];
    }
  }

  /** `{item: "" for item in ITEMS}`. */
  function EmptyResult(): Entries {
    seq(|Items|, i requires 0 <= i < |Items| => (Items[i], JString("")))
  }

  /** The empty result maps exactly the seven items, each to "". */
  lemma EmptyResultLookup(k: string)
    ensures Lookup(EmptyResult(), k) == if k in Items then Some(JString("")) else None
  {
    var e := EmptyResult();
    ItemsDistinct();
    if k in Items {
      var i :| 0 <= i < |Items| && Items[i] == k;
      KeyIndexIs(e, k, i);
    } else {
      KeyIndexNone(e, k);
    }
  }

  /** What `parse_response` returns for the decoder's outcome: a dict holding every item. */
  function Reconciled(decoded: Option<Json>): Entries {
    match decoded
    case Some(JObject(e)) => Filled(e, Items)
    case _ => EmptyResult()
  }

  /**
    A decoded object keeps its members and gains the missing items as ""; any other
    outcome (a decoding failure or a non-object value) gives exactly the empty result.
   */
  lemma ReconciledLookup(decoded: Option<Json>, k: string)
    ensures Lookup(Reconciled(decoded), k) ==
      match decoded
      case Some(JObject(e)) =>
        if HasKey(e, k) then Lookup(e, k) else if k in Items then Some(JString("")) else None
      case _ => if k in Items then Some(JString("")) else None
    ensures k in Items ==> HasKey(Reconciled(decoded), k)
  {
    match decoded
    case Some(JObject(e)) =>
      FilledLookup(e, Items, k);
      if k in Items && HasKey(e, k) {
        assert Lookup(e, k).Some?;
      }
    case _ =>
      EmptyResultLookup(k);
  }

  /** The meaning of `parse_response(reply)`. */
  function Parse(reply: string, decode: string -> Option<Json>): Entries {
    Reconciled(decode(StripFence(reply)))
  }

  /** The loop `for item in ITEMS: if item not in result: result[item] = ""`. */
  method FillItems(e: Entries) returns (result: Entries)
    ensures result == Filled(e, Items)
  {
    result := e;
    for i := 0 to |Items|
      invariant Filled(result, Items[i..]) == Filled(e, Items)
    {
      assert Items[i..][1..] == Items[i + 1..];
      if !HasKey(result, Items[i]) {
        result := SetKey(result, Items[i], JString(""));
      }
    }
    assert Items[|Items|..] == [];
  }

  /** `parse_response`: clean the reply, decode it, and fill in the missing items. */
  method ParseResponse(reply: string, decode: string -> Option<Json>) returns (result: Entries)
    ensures result == Parse(reply, decode)
    ensures forall item :: item in Items ==> HasKey(result, item)
  {
    var cleaned := StripFence(reply);
    var decoded := decode(cleaned);
    if decoded.Some? && decoded.value.JObject? {
      result := FillItems(decoded.value.entries);
    } else {
      result := EmptyResult();
    }
    forall item | item in Items ensures HasKey(result, item) {
      ReconciledLookup(decoded, item);
    }
  }

  /**
    `parse_response` as written: the fill loop runs on whatever the decoder produced.
    On a list `item not in result` tests membership and `result[item] = ""` raises
    TypeError, on a string the test is a substring test; so a list holding every item
    name, or a string holding every item name, is returned unchanged instead of a dict.
   */
  function ReconciledAsWritten(decoded: Option<Json>): Json {
    match decoded
    case Some(JObject(e)) => JObject(Filled(e, Items))
    case Some(JArray(xs)) =>
      if forall i :: 0 <= i < |Items| ==> JString(Items[i]) in xs then JArray(xs) else JObject(EmptyResult())
    case Some(JString(s)) =>
      if forall i :: 0 <= i < |Items| ==> Contains(s, Items[i]) then JString(s) else JObject(EmptyResult())
    case _ => JObject(EmptyResult())
  }

  function ParseResponseAsWritten(reply: string, decode: string -> Option<Json>): Json {
    ReconciledAsWritten(decode(StripFence(reply)))
  }

  /** The item names as a JSON list. */
  function ItemNames(): seq<Json> {
    seq(|Items|, i requires 0 <= i < |Items| => JString(Items[i]))
  }

  /** A reply that decodes to the list of item names comes back from `parse_response` as that list, not as a dict. */
  lemma ParseResponseAsWrittenKeepsList(reply: string, decode: string -> Option<Json>)
    requires decode(StripFence(reply)) == Some(JArray(ItemNames()))
    ensures ParseResponseAsWritten(reply, decode) == JArray(ItemNames())
    ensures !ParseResponseAsWritten(reply, decode).JObject?
  {
    ReconciledAsWrittenKeepsList();
  }

  lemma ReconciledAsWrittenKeepsList()
    ensures ReconciledAsWritten(Some(JArray(ItemNames()))) == JArray(ItemNames())
  {
    forall i | 0 <= i < |Items| ensures JString(Items[i]) in ItemNames() {
      assert ItemNames()[i] == JString(Items[i]);
    }
  }

  /** Wherever the as-written parse returns a dict, it is the reconciled one. */
  lemma ParseResponseAsWrittenAgrees(reply: string, decode: string -> Option<Json>)
    ensures ParseResponseAsWritten(reply, decode).JObject? ==>
      ParseResponseAsWritten(reply, decode) == JObject(Parse(reply, decode))
  {
  }

  // ---------------------------------------------------------------------------
  // process_batch_question

  /** A model reply: its text, or the `ServerError` the SDK raises. */
  datatype Reply = ServerError | Text(text: string)

  /** The fixed instruction placed before every batch. */
  const Prompt: string :=
    "你是一位遊戲題目審核專家，請根據以下編碼規則評估每個題目的字詞是否合標準，\n"
    + Join("\n", Items)
    + "\n\n請依據評估結果，對每個項目：若觸及則標記為 1，否則留空。 請對每筆逐字稿產生 JSON 格式回覆，並在各筆結果間用下列分隔線隔開：\n"
    + Delimiter + "\n"
    + "例如：\n```json\n{\n  \"生活化\": \"1\",\n  \"粗俗用語\": \"\",\n  ...\n}\n"
    + Delimiter + "\n"
    + "{{...}}\n```"

  function QuestionLines(questions: seq<seq<string>>): (lines: seq<string>)
    ensures |lines| == |questions|
  {
    seq(|questions|, i requires 0 <= i < |questions| => Join(",", questions[i]))
  }

  /** The questions, each as its comma-joined fields, separated by delimiter lines. */
  function BatchText(questions: seq<seq<string>>): string {
    Join("\n" + Delimiter + "\n", QuestionLines(questions))
  }

  function Content(questions: seq<seq<string>>): string {
    Prompt + "\n\n" + BatchText(questions)
  }

  /** The batch text splits back into the questions' lines when no line runs into a delimiter line. */
  lemma BatchTextSplit(questions: seq<seq<string>>)
    requires |questions| >= 1
    requires forall i :: 0 <= i < |questions| ==> Delimits(Join(",", questions[i]), "\n" + Delimiter + "\n")
    ensures Split(BatchText(questions), "\n" + Delimiter + "\n") == QuestionLines(questions)
  {
    JoinSplit("\n" + Delimiter + "\n", QuestionLines(questions));
  }

  /** The pieces of the reply that are not blank after trimming, trimmed, in order. */
  function Segments(parts: seq<string>): (segs: seq<string>)
    ensures |segs| <= |parts|
    ensures forall j :: 0 <= j < |segs| ==> segs[j] != "" && Bare(segs[j], IsSpace)
    decreases |parts|
  {
    if |parts| == 0 then []
    else
      var last := parts[|parts| - 1];
      var init := Segments(parts[..|parts| - 1]);
      if Strip(last) == "" then init
      else
        TrimIdempotent(last, IsSpace);
        init + [Strip(last)]
  }

  /** When no piece is blank, every piece becomes a segment, trimmed, and they stay in order. */
  lemma {:induction false} SegmentsNoBlank(parts: seq<string>)
    requires forall i :: 0 <= i < |parts| ==> Strip(parts[i]) != ""
    ensures |Segments(parts)| == |parts|
    ensures forall j :: 0 <= j < |parts| ==> Segments(parts)[j] == Strip(parts[j])
    decreases |parts|
  {
    if |parts| > 0 {
      var init := parts[..|parts| - 1];
      var last := parts[|parts| - 1];
      assert forall i :: 0 <= i < |init| ==> init[i] == parts[i];
      SegmentsNoBlank(init);
      SegmentsStep(parts);
    }
  }

  lemma SegmentsStep(parts: seq<string>)
    requires |parts| > 0
    requires Strip(parts[|parts| - 1]) != ""
    ensures Segments(parts) == Segments(parts[..|parts| - 1]) + [Strip(parts[|parts| - 1])]
  {
  }

  /** The list cut or padded to exactly `n` elements: `results[:n]`, or `results.extend([pad] * k)`. */
  function Fit<T>(xs: seq<T>, n: nat, pad: T): (r: seq<T>)
    ensures |r| == n
    ensures forall j :: 0 <= j < n && j < |xs| ==> r[j] == xs[j]
    ensures forall j :: |xs| <= j < n ==> r[j] == pad
  {
    if |xs| > n then xs[..n] else xs + seq(n - |xs|, _ => pad)
  }

  /** `parse_response` applied to each segment, in order. */
  function ParseAll(segs: seq<string>, decode: string -> Option<Json>): (rs: seq<Entries>)
    ensures |rs| == |segs|
    ensures forall j :: 0 <= j < |segs| ==> rs[j] == Parse(segs[j], decode)
  {
    MapSeq(s => Parse(s, decode), segs)
  }

  lemma ParseAllSnoc(segs: seq<string>, seg: string, decode: string -> Option<Json>)
    ensures ParseAll(segs + [seg], decode) == ParseAll(segs, decode) + [Parse(seg, decode)]
  {
    MapSeqSnoc(s => Parse(s, decode), segs, seg);
  }

  /** What `process_batch_question` returns for a batch. */
  function BatchResults(questions: seq<seq<string>>, llm: string -> Reply, decode: string -> Option<Json>): (rs: seq<Entries>)
    ensures |rs| == |questions|
  {
    match llm(Content(questions))
    case ServerError => seq(|questions|, _ => EmptyResult())
    case Text(t) => Fit(ParseAll(Segments(Split(t, Delimiter)), decode), |questions|, EmptyResult())
  }

  /**
    A batch yields exactly one result per question, each holding every item. After a
    server error they are all empty; otherwise result j is the parse of segment j, and
    questions beyond the last segment get the empty result.
   */
  lemma BatchResultsShape(questions: seq<seq<string>>, llm: string -> Reply, decode: string -> Option<Json>, j: nat)
    requires j < |questions|
    ensures |BatchResults(questions, llm, decode)| == |questions|
    ensures forall item :: item in Items ==> HasKey(BatchResults(questions, llm, decode)[j], item)
    ensures llm(Content(questions)).ServerError? ==> BatchResults(questions, llm, decode)[j] == EmptyResult()
    ensures llm(Content(questions)).Text? ==>
      var segs := Segments(Split(llm(Content(questions)).text, Delimiter));
      BatchResults(questions, llm, decode)[j] == if j < |segs| then Parse(segs[j], decode) else EmptyResult()
  {
    var r := BatchResults(questions, llm, decode)[j];
    forall item | item in Items ensures HasKey(r, item) {
      ReconciledLookup(None, item);
      if llm(Content(questions)).Text? {
        var segs := Segments(Split(llm(Content(questions)).text, Delimiter));
        if j < |segs| {
          ReconciledLookup(decode(StripFence(segs[j])), item);
        }
      }
    }
  }

  /** The loop over the reply's pieces: trim each one and parse it unless it is blank. */
  method CollectResults(parts: seq<string>, decode: string -> Option<Json>) returns (results: seq<Entries>)
    ensures results == ParseAll(Segments(parts), decode)
  {
    results := [];
    for i := 0 to |parts|
      invariant results == ParseAll(Segments(parts[..i]), decode)
    {
      assert parts[..i + 1][..i] == parts[..i];
      var part := Strip(parts[i]);
      if part != "" {
        var parsed := ParseResponse(part, decode);
        ParseAllSnoc(Segments(parts[..i]), part, decode);
        results := results + [parsed];
      }
    }
    assert parts[..|parts|] == parts;
  }

  /** `process_batch_question`: one model call per batch, then the segment loop and the fit. */
  method ProcessBatchQuestion(questions: seq<seq<string>>, llm: string -> Reply, decode: string -> Option<Json>)
    returns (results: seq<Entries>)
    ensures results == BatchResults(questions, llm, decode)
  {
    var response := llm(Content(questions));
    if response.ServerError? {
      results := seq(|questions|, _ => EmptyResult());
      return;
    }
    var parts := Split(response.text, Delimiter);
    results := CollectResults(parts, decode);
    if |results| > |questions| {
      results := results[..|questions|];
    } else if |results| < |questions| {
      results := results + seq(|questions| - |results|, _ => EmptyResult());
    }
  }
}

module QreviewOutput {
  import opened Wrappers
  import opened JsonValues
  import opened Chunking
  import opened Qreview

  // ---------------------------------------------------------------------------
  // The batch table and its item columns

  /** A batch as pandas holds it: column names and rows of cells. */
  datatype Frame = Frame(columns: seq<string>, rows: seq<seq<Json>>)

  predicate WellFormed(f: Frame) {
    Distinct(f.columns) && forall r :: 0 <= r < |f.rows| ==> |f.rows[r]| == |f.columns|
  }

  /** The position of a column name. */
  function FindName(xs: seq<string>, x: string): (r: Option<nat>)
    ensures r.Some? ==> r.value < |xs| && xs[r.value] == x
    ensures r.None? <==> x !in xs
  {
    if |xs| == 0 then None
    else if xs[0] == x then Some(0)
    else match FindName(xs[1..], x)
      case None => None
      case Some(i) => Some(i + 1)
  }

  lemma FindNameDistinct(xs: seq<string>, c: nat)
    requires Distinct(xs) && c < |xs|
    ensures FindName(xs, xs[c]) == Some(c)
  {
  }

  /** The cell of row `r` under column `name`, if the frame has that column. */
  function CellOf(f: Frame, r: nat, name: string): Option<Json>
    requires WellFormed(f) && r < |f.rows|
  {
    match FindName(f.columns, name)
    case Some(c) => Some(f.rows[r][c])
    case None => None
  }

  /** `batch_df[name] = values`: an existing column is overwritten in place, a new one is added at the right. */
  function SetColumn(f: Frame, name: string, values: seq<Json>): (g: Frame)
    requires WellFormed(f) && |values| == |f.rows|
    ensures WellFormed(g) && |g.rows| == |f.rows|
    ensures g.columns == if name in f.columns then f.columns else f.columns + [name]
  {
    match FindName(f.columns, name)
    case Some(c) =>
      Frame(f.columns, seq(|f.rows|, r requires 0 <= r < |f.rows| => f.rows[r][c := values[r]]))
    case None =>
      var g := Frame(f.columns + [name], seq(|f.rows|, r requires 0 <= r < |f.rows| => f.rows[r] + [values[r]]));
      assert Distinct(g.columns) by {
        forall i, j | 0 <= i < j < |g.columns| ensures g.columns[i] != g.columns[j] {
          if j == |f.columns| {
            assert g.columns[i] == f.columns[i];
          }
        }
      }
      g
  }

  /** After `batch_df[name] = values`, the column `name` holds `values` and every other column is unchanged. */
  lemma SetColumnCell(f: Frame, name: string, values: seq<Json>, r: nat, q: string)
    requires WellFormed(f) && |values| == |f.rows| && r < |f.rows|
    ensures CellOf(SetColumn(f, name, values), r, q) == if q == name then Some(values[r]) else CellOf(f, r, q)
  {
    var g := SetColumn(f, name, values);
    match FindName(f.columns, name)
    case Some(c) =>
      if q == name {
        FindNameDistinct(f.columns, c);
      } else {
        match FindName(f.columns, q)
        case Some(c') =>
          assert c' != c;
        case None =>
      }
    case None =>
      if q == name {
        FindNameDistinct(g.columns, |f.columns|);
      } else {
        match FindName(f.columns, q)
        case Some(c') =>
          assert g.columns[c'] == q;
          FindNameDistinct(g.columns, c');
        case None =>
          assert q !in g.columns;
      }
  }

  /** The column list after assigning each of `items` in turn. */
  function ColumnsAfter(cols: seq<string>, items: seq<string>): seq<string>
    decreases |items|
  {
    if |items| == 0 then cols
    else ColumnsAfter(if items[0] in cols then cols else cols + [items[0]], items[1..])
  }

  /**
    The assigned columns keep the original ones in place, in front, and add each
    missing item once, so that every item is a column and no other name appears.
   */
  lemma {:induction false} ColumnsAfterShape(cols: seq<string>, items: seq<string>)
    requires Distinct(cols)
    ensures cols <= ColumnsAfter(cols, items)
    ensures Distinct(ColumnsAfter(cols, items))
    ensures forall q :: q in ColumnsAfter(cols, items) <==> q in cols || q in items
    decreases |items|
  {
    if |items| > 0 {
      var next := if items[0] in cols then cols else cols + [items[0]];
      assert Distinct(next) by {
        forall i, j | 0 <= i < j < |next| ensures next[i] != next[j] {
          if j == |cols| {
            assert next[i] == cols[i];
          }
        }
      }
      ColumnsAfterShape(next, items[1..]);
      assert forall q :: q in items <==> q == items[0] || q in items[1..];
    }
  }

  /** The list `[res.get(item, "") for res in results]`. */
  function ItemColumn(results: seq<Entries>, item: string): (col: seq<Json>)
    ensures |col| == |results|
  {
    seq(|results|, k requires 0 <= k < |results| => Get(results[k], item, JString("")))
  }

  /** The loop `for item in ITEMS: batch_df[item] = [res.get(item, "") for res in batch_results]`. */
  function WithItems(f: Frame, items: seq<string>, results: seq<Entries>): (g: Frame)
    requires WellFormed(f) && |results| == |f.rows|
    ensures WellFormed(g) && |g.rows| == |f.rows|
    ensures g.columns == ColumnsAfter(f.columns, items)
    decreases |items|
  {
    if |items| == 0 then f
    else WithItems(SetColumn(f, items[0], ItemColumn(results, items[0])), items[1..], results)
  }

  /** Every assigned column holds the results' values for it; every other column is unchanged. */
  lemma {:induction false} WithItemsCell(f: Frame, items: seq<string>, results: seq<Entries>, r: nat, q: string)
    requires WellFormed(f) && |results| == |f.rows| && r < |f.rows|
    ensures CellOf(WithItems(f, items, results), r, q) ==
      if q in items then Some(Get(results[r], q, JString(""))) else CellOf(f, r, q)
    decreases |items|
  {
    if |items| > 0 {
      var f1 := SetColumn(f, items[0], ItemColumn(results, items[0]));
      WithItemsCell(f1, items[1..], results, r, q);
      SetColumnCell(f, items[0], ItemColumn(results, items[0]), r, q);
      assert q in items <==> q == items[0] || q in items[1..];
    }
  }

  // ---------------------------------------------------------------------------
  // One batch of rows

  /** The two word columns every batch reads. */
  const Word1: string := "字詞1"
  const Word2: string := "字詞2"

  predicate RowsFit(columns: seq<string>, rows: seq<seq<string>>) {
    forall k :: 0 <= k < |rows| ==> |rows[k]| == |columns|
  }

  /** The batch as pandas reads it from the CSV: every cell a string. */
  function InputFrame(columns: seq<string>, batch: seq<seq<string>>): (f: Frame)
    requires Distinct(columns) && RowsFit(columns, batch)
    ensures WellFormed(f) && f.columns == columns && |f.rows| == |batch|
  {
    Frame(columns, seq(|batch|, k requires 0 <= k < |batch| =>
      seq(|columns|, c requires 0 <= c < |columns| => JString(batch[k][c]))))
  }

  /** `[[w1, w2] for w1, w2 in zip(batch["字詞1"], batch["字詞2"])]`. */
  function Questions(columns: seq<string>, batch: seq<seq<string>>): (qs: seq<seq<string>>)
    requires Word1 in columns && Word2 in columns && RowsFit(columns, batch)
    ensures |qs| == |batch|
  {
    var i1, i2 := FindName(columns, Word1).value, FindName(columns, Word2).value;
    seq(|batch|, k requires 0 <= k < |batch| => [batch[k][i1], batch[k][i2]])
  }

  /** The header of every output file: the input columns, then the items the input lacks, in item order. */
  function OutputColumns(columns: seq<string>): seq<string> {
    ColumnsAfter(columns, Items)
  }

  /** The rows a batch adds to the output file, item columns filled from `results`. */
  function OutputRows(columns: seq<string>, batch: seq<seq<string>>, results: seq<Entries>): (rows: seq<seq<Json>>)
    requires Distinct(columns) && RowsFit(columns, batch) && |results| == |batch|
    ensures |rows| == |batch|
  {
    WithItems(InputFrame(columns, batch), Items, results).rows
  }

  /** The cell under column name `q` of an output row, if the header has that column. */
  function CellByName(names: seq<string>, cells: seq<Json>, q: string): Option<Json> {
    match FindName(names, q)
    case Some(c) => if c < |cells| then Some(cells[c]) else None
    case None => None
  }

  /**
    Row `k` of a batch has one cell per output column. Its item columns hold
    `res.get(item, "")` for the result of question `k`, and its other columns hold
    the input row's cells.
   */
  lemma OutputRowCells(columns: seq<string>, batch: seq<seq<string>>, results: seq<Entries>, k: nat, q: string)
    requires Distinct(columns) && RowsFit(columns, batch) && |results| == |batch|
    requires k < |batch|
    ensures |OutputRows(columns, batch, results)[k]| == |OutputColumns(columns)|
    ensures CellByName(OutputColumns(columns), OutputRows(columns, batch, results)[k], q) ==
      if q in Items then Some(Get(results[k], q, JString("")))
      else if q in columns then Some(JString(batch[k][FindName(columns, q).value]))
      else None
  {
    var f := InputFrame(columns, batch);
    var g := WithItems(f, Items, results);
    WithItemsCell(f, Items, results, k, q);
    InputFrameCell(columns, batch, k, q);
    CellByNameOf(g, k, q);
  }

  lemma CellByNameOf(g: Frame, k: nat, q: string)
    requires WellFormed(g) && k < |g.rows|
    ensures CellByName(g.columns, g.rows[k], q) == CellOf(g, k, q)
  {
  }

  lemma InputFrameCell(columns: seq<string>, batch: seq<seq<string>>, k: nat, q: string)
    requires Distinct(columns) && RowsFit(columns, batch) && k < |batch|
    ensures CellOf(InputFrame(columns, batch), k, q) ==
      if q in columns then Some(JString(batch[k][FindName(columns, q).value])) else None
  {
  }

  /**
    The rows a batch adds to the output file: the batch with the model's results
    in its item columns. A batch without both word columns never gets that far.
   */
  function BatchRows(columns: seq<string>, llm: string -> Reply, decode: string -> Option<Json>, batch: seq<seq<string>>): seq<seq<Json>> {
    if Distinct(columns) && Word1 in columns && Word2 in columns && RowsFit(columns, batch)
    then OutputRows(columns, batch, BatchResults(Questions(columns, batch), llm, decode))
    else []
  }

  function BatchRowsOf(columns: seq<string>, llm: string -> Reply, decode: string -> Option<Json>): seq<seq<string>> -> seq<seq<Json>> {
    batch => BatchRows(columns, llm, decode, batch)
  }

  /** Row `k` of a batch's output keeps its input cells outside the item columns, and fills every item column from the model's results. */
  lemma BatchRowsCells(columns: seq<string>, llm: string -> Reply, decode: string -> Option<Json>,
                         batch: seq<seq<string>>, k: nat, q: string)
    requires Distinct(columns) && Word1 in columns && Word2 in columns && RowsFit(columns, batch)
    requires k < |batch|
    ensures |BatchRows(columns, llm, decode, batch)| == |batch|
    ensures |BatchRows(columns, llm, decode, batch)[k]| == |OutputColumns(columns)|
    ensures CellByName(OutputColumns(columns), BatchRows(columns, llm, decode, batch)[k], q) ==
      if q in Items then Some(Get(BatchResults(Questions(columns, batch), llm, decode)[k], q, JString("")))
      else if q in columns then Some(JString(batch[k][FindName(columns, q).value]))
      else None
  {
    OutputRowCells(columns, batch, BatchResults(Questions(columns, batch), llm, decode), k, q);
  }

  // ---------------------------------------------------------------------------
  // The whole file

  datatype CsvLine = HeaderLine(names: seq<string>) | DataLine(cells: seq<Json>)

  function DataLines(rows: seq<seq<Json>>): (lines: seq<CsvLine>)
    ensures |lines| == |rows|
  {
    seq(|rows|, k requires 0 <= k < |rows| => DataLine(rows[k]))
  }

  /** Writing two runs of rows one after the other gives the lines of writing them at once. */
  lemma DataLinesAppend(a: seq<seq<Json>>, b: seq<seq<Json>>)
    ensures DataLines(a + b) == DataLines(a) + DataLines(b)
  {
    var whole := DataLines(a + b);
    forall k | 0 <= k < |whole| ensures whole[k] == (DataLines(a) + DataLines(b))[k] {
      if k < |a| {
        assert (a + b)[k] == a[k];
      } else {
        assert (a + b)[k] == b[k - |a|];
      }
    }
  }

  /** The data lines of the batches are the data lines of all their output rows, batch after batch. */
  lemma {:induction false} BatchesLinesFlatten<T>(batches: seq<seq<T>>, rowsOf: seq<T> -> seq<seq<Json>>)
    ensures BatchesLines(batches, rowsOf) == DataLines(Flatten(MapSeq(rowsOf, batches)))
    decreases |batches|
  {
    if |batches| > 0 {
      var n := |batches| - 1;
      var init := batches[..n];
      BatchesLinesFlatten(init, rowsOf);
      assert batches == init + [batches[n]];
      MapSeqSnoc(rowsOf, init, batches[n]);
      FlattenAppend(MapSeq(rowsOf, init), rowsOf(batches[n]));
      DataLinesAppend(Flatten(MapSeq(rowsOf, init)), rowsOf(batches[n]));
    } else {
      assert MapSeq(rowsOf, batches) == [];
    }
  }

  /** Every batch gives one output row per input row. */
  predicate RowsPerBatch<T>(batches: seq<seq<T>>, rowsOf: seq<T> -> seq<seq<Json>>) {
    forall b :: 0 <= b < |batches| ==> |rowsOf(batches[b])| == |batches[b]|
  }

  /** The data lines of the batches, batch after batch. */
  function BatchesLines<T>(batches: seq<seq<T>>, rowsOf: seq<T> -> seq<seq<Json>>): seq<CsvLine>
    decreases |batches|
  {
    if |batches| == 0 then []
    else
      var n := |batches| - 1;
      BatchesLines(batches[..n], rowsOf) + DataLines(rowsOf(batches[n]))
  }

  lemma ChunksFit(columns: seq<string>, rows: seq<seq<string>>, llm: string -> Reply, decode: string -> Option<Json>)
    requires Distinct(columns) && Word1 in columns && Word2 in columns && RowsFit(columns, rows)
    ensures RowsPerBatch(Chunks(rows, BatchSize), BatchRowsOf(columns, llm, decode))
  {
    var cs := Chunks(rows, BatchSize);
    forall b | 0 <= b < |cs| ensures |BatchRows(columns, llm, decode, cs[b])| == |cs[b]| {
      ChunkAt(rows, BatchSize, b);
      assert RowsFit(columns, cs[b]);
    }
  }

  /** The content of the output file after a completed run over `rows`: nothing for no rows, else the header and every batch's rows. */
  function ExpectedOutput(columns: seq<string>, rows: seq<seq<string>>, llm: string -> Reply,
                          decode: string -> Option<Json>): seq<CsvLine>
  {
    FileLines(OutputColumns(columns), Chunks(rows, BatchSize), BatchRowsOf(columns, llm, decode))
  }

  /** A file written batch by batch: nothing before the first batch, then the header and each batch's rows. */
  function FileLines<T>(header: seq<string>, batches: seq<seq<T>>, rowsOf: seq<T> -> seq<seq<Json>>): seq<CsvLine> {
    if |batches| == 0 then [] else [HeaderLine(header)] + BatchesLines(batches, rowsOf)
  }

  /** Writing one more batch: the first one brings the header, later ones only append their rows. */
  lemma FileLinesSnoc<T>(header: seq<string>, done: seq<seq<T>>, batch: seq<T>, rowsOf: seq<T> -> seq<seq<Json>>)
    ensures FileLines(header, done + [batch], rowsOf) ==
      (if |done| == 0 then [HeaderLine(header)] else FileLines(header, done, rowsOf)) + DataLines(rowsOf(batch))
  {
    var d := DataLines(rowsOf(batch));
    BatchesLinesSnoc(done, batch, rowsOf);
    var h := [HeaderLine(header)];
    if |done| == 0 {
      assert BatchesLines(done, rowsOf) == [];
      assert FileLines(header, done + [batch], rowsOf) == h + ([] + d);
      assert [] + d == d;
    } else {
      assert FileLines(header, done, rowsOf) == h + BatchesLines(done, rowsOf);
      ConcatAssoc(h, BatchesLines(done, rowsOf), d);
    }
  }

  lemma BatchesLinesSnoc<T>(done: seq<seq<T>>, batch: seq<T>, rowsOf: seq<T> -> seq<seq<Json>>)
    ensures BatchesLines(done + [batch], rowsOf) == BatchesLines(done, rowsOf) + DataLines(rowsOf(batch))
  {
    assert (done + [batch])[..|done|] == done;
  }

  lemma {:induction false} BatchesLinesLength<T>(batches: seq<seq<T>>, rowsOf: seq<T> -> seq<seq<Json>>)
    requires RowsPerBatch(batches, rowsOf)
    ensures |BatchesLines(batches, rowsOf)| == |Flatten(batches)|
    decreases |batches|
  {
    if |batches| > 0 {
      var n := |batches| - 1;
      assert batches == batches[..n] + [batches[n]];
      FlattenAppend(batches[..n], batches[n]);
      BatchesLinesLength(batches[..n], rowsOf);
    }
  }

  /** Line `k` of the batches' data lines is the output row, within its batch, of the `k`-th row over all batches. */
  lemma {:induction false} BatchesLinesAt<T>(batches: seq<seq<T>>, rowsOf: seq<T> -> seq<seq<Json>>, k: nat)
    returns (b: nat, j: nat)
    requires RowsPerBatch(batches, rowsOf)
    requires k < |Flatten(batches)|
    ensures b < |batches| && j < |batches[b]|
    ensures |BatchesLines(batches, rowsOf)| == |Flatten(batches)|
    ensures Flatten(batches)[k] == batches[b][j]
    ensures BatchesLines(batches, rowsOf)[k] == DataLine(rowsOf(batches[b])[j])
    decreases |batches|
  {
    BatchesLinesLength(batches, rowsOf);
    var n := |batches| - 1;
    var init, last := batches[..n], batches[n];
    assert batches == init + [last];
    FlattenAppend(init, last);
    BatchesLinesLength(init, rowsOf);
    var m := |Flatten(init)|;
    var lines := BatchesLines(batches, rowsOf);
    assert lines == BatchesLines(init, rowsOf) + DataLines(rowsOf(last));
    if k < m {
      b, j := BatchesLinesAt(init, rowsOf, k);
      assert batches[b] == init[b];
      assert Flatten(batches)[k] == Flatten(init)[k];
    } else {
      b, j := n, k - m;
      assert Flatten(batches)[k] == last[k - m];
    }
  }

  /** For any way of turning batches into rows: the header, then one line per input row, each from its own batch. */
  lemma FileLinesAt<T>(header: seq<string>, rows: seq<T>, rowsOf: seq<T> -> seq<seq<Json>>, k: nat)
    returns (b: nat, j: nat)
    requires RowsPerBatch(Chunks(rows, BatchSize), rowsOf)
    requires k < |rows|
    ensures |FileLines(header, Chunks(rows, BatchSize), rowsOf)| == |rows| + 1
    ensures b < |Chunks(rows, BatchSize)| && j < |Chunks(rows, BatchSize)[b]|
    ensures rows[k] == Chunks(rows, BatchSize)[b][j]
    ensures FileLines(header, Chunks(rows, BatchSize), rowsOf)[k + 1] ==
      DataLine(rowsOf(Chunks(rows, BatchSize)[b])[j])
  {
    ChunksPartition(rows, BatchSize);
    b, j := BatchesLinesAt(Chunks(rows, BatchSize), rowsOf, k);
  }

  lemma FileLength<T>(header: seq<string>, rows: seq<T>, rowsOf: seq<T> -> seq<seq<Json>>)
    requires RowsPerBatch(Chunks(rows, BatchSize), rowsOf)
    ensures |rows| > 0 ==> |FileLines(header, Chunks(rows, BatchSize), rowsOf)| == |rows| + 1
    ensures |rows| > 0 ==> FileLines(header, Chunks(rows, BatchSize), rowsOf)[0] == HeaderLine(header)
    ensures |rows| == 0 ==> FileLines(header, Chunks(rows, BatchSize), rowsOf) == []
  {
    ChunksPartition(rows, BatchSize);
    BatchesLinesLength(Chunks(rows, BatchSize), rowsOf);
  }

  /** The non-item cells of an output line, under the output header, read back as the input row's cells. */
  predicate KeepsRow(columns: seq<string>, line: CsvLine, row: seq<string>, q: string)
    requires |row| == |columns|
  {
    line.DataLine? &&
    (q in columns && q !in Items ==>
      CellByName(OutputColumns(columns), line.cells, q) == Some(JString(row[FindName(columns, q).value])))
  }

  /**
    A completed run over a non-empty input leaves one header plus one line per input
    row, in input order; each line keeps its row's non-item cells.
   */
  lemma ExpectedOutputShape(columns: seq<string>, rows: seq<seq<string>>, llm: string -> Reply,
                            decode: string -> Option<Json>, k: nat, q: string)
    requires Distinct(columns) && Word1 in columns && Word2 in columns && RowsFit(columns, rows)
    requires |rows| > 0
    ensures |ExpectedOutput(columns, rows, llm, decode)| == |rows| + 1
    ensures ExpectedOutput(columns, rows, llm, decode)[0] == HeaderLine(OutputColumns(columns))
    ensures k < |rows| ==> KeepsRow(columns, ExpectedOutput(columns, rows, llm, decode)[k + 1], rows[k], q)
  {
    var rowsOf := BatchRowsOf(columns, llm, decode);
    ChunksFit(columns, rows, llm, decode);
    FileLength(OutputColumns(columns), rows, rowsOf);
    if k < |rows| {
      var b, j := FileLinesAt(OutputColumns(columns), rows, rowsOf, k);
      var cs := Chunks(rows, BatchSize);
      ChunkAt(rows, BatchSize, b);
      BatchRowsCells(columns, llm, decode, cs[b], j, q);
    }
  }

  // ---------------------------------------------------------------------------
  // main

  /** The output CSV file: whether it exists, and its lines. */
  class CsvFile {
    var present: bool
    var lines: seq<CsvLine>

    constructor (present0: bool, lines0: seq<CsvLine>)
      ensures present == present0 && lines == lines0
    {
      present := present0;
      lines := lines0;
    }

    /** `os.remove` after `os.path.exists`: afterwards there is no file. */
    method Remove()
      modifies this
      ensures !present && lines == []
    {
      present := false;
      lines := [];
    }

    /** `to_csv(path, index=False)`: the file is replaced by a header and the rows. */
    method Write(header: seq<string>, rows: seq<seq<Json>>)
      modifies this
      ensures present && lines == [HeaderLine(header)] + DataLines(rows)
    {
      present := true;
      lines := [HeaderLine(header)] + DataLines(rows);
    }

    /** `to_csv(path, mode='a', index=False, header=False)`: the rows go after whatever the file holds, creating it if needed. */
    method Append(rows: seq<seq<Json>>)
      modifies this
      ensures present && lines == (if old(present) then old(lines) else []) + DataLines(rows)
    {
      lines := (if present then lines else []) + DataLines(rows);
      present := true;
    }
  }

  /** How `main` ends once the input is read: every batch written, or the KeyError of a missing word column. */
  datatype RunOutcome = Completed | MissingColumn

  /**
    `main` after the input CSV is read: remove any old output, then for each batch of
    ten rows ask the model, fill the item columns, and write the batch, with the
    header the first time and appended after that.
   */
  method RunReview(columns: seq<string>, rows: seq<seq<string>>, out: CsvFile,
                   llm: string -> Reply, decode: string -> Option<Json>) returns (outcome: RunOutcome)
    requires Distinct(columns) && RowsFit(columns, rows)
    modifies out
    ensures outcome == Completed <==> |rows| == 0 || (Word1 in columns && Word2 in columns)
    ensures outcome == Completed ==> out.present == (|rows| > 0) && out.lines == ExpectedOutput(columns, rows, llm, decode)
    ensures outcome == MissingColumn ==> !out.present && out.lines == []
  {
    out.Remove();
    if |rows| > 0 && !(Word1 in columns && Word2 in columns) {
      return MissingColumn;
    }
    ReviewBatches(columns, rows, out, llm, decode);
    return Completed;
  }

  /** The loop `for start_idx in range(0, total, batch_size)` over the batches `df.iloc[start_idx:end_idx]`, writing into a file that `main` has just removed. */
  method ReviewBatches(columns: seq<string>, rows: seq<seq<string>>, out: CsvFile,
                       llm: string -> Reply, decode: string -> Option<Json>)
    requires Distinct(columns) && RowsFit(columns, rows)
    requires |rows| == 0 || (Word1 in columns && Word2 in columns)
    requires !out.present && out.lines == []
    modifies out
    ensures out.present == (|rows| > 0) && out.lines == ExpectedOutput(columns, rows, llm, decode)
  {
    var batches := ChunkSlices(rows, BatchSize);
    ChunksPartition(rows, BatchSize);
    for b := 0 to |batches|
      invariant out.present == (b > 0)
      invariant out.lines == FileLines(OutputColumns(columns), batches[..b], BatchRowsOf(columns, llm, decode))
    {
      WriteBatch(columns, rows, batches, b, out, llm, decode);
    }
    assert batches[..|batches|] == batches;
  }

  /** One pass of the batch loop: process batch `b`, then write it, with the header when it is the first. */
  method WriteBatch(columns: seq<string>, rows: seq<seq<string>>, batches: seq<seq<seq<string>>>, b: nat, out: CsvFile,
                    llm: string -> Reply, decode: string -> Option<Json>)
    requires batches == Chunks(rows, BatchSize) && b < |batches|
    requires Distinct(columns) && Word1 in columns && Word2 in columns && RowsFit(columns, rows)
    requires out.present == (b > 0)
    requires out.lines == FileLines(OutputColumns(columns), batches[..b], BatchRowsOf(columns, llm, decode))
    modifies out
    ensures out.present
    ensures out.lines == FileLines(OutputColumns(columns), batches[..b + 1], BatchRowsOf(columns, llm, decode))
  {
    ChunkAt(rows, BatchSize, b);
    assert RowsFit(columns, batches[b]);
    var header, batchRows := ProcessBatch(columns, batches[b], llm, decode);
    TakeSnoc(batches, b);
    FileLinesSnoc(OutputColumns(columns), batches[..b], batches[b], BatchRowsOf(columns, llm, decode));
    if b == 0 {
      out.Write(header, batchRows);
    } else {
      out.Append(batchRows);
    }
  }

  /** One pass of the batch loop up to the write: ask the model about the batch and fill in the item columns. */
  method ProcessBatch(columns: seq<string>, batch: seq<seq<string>>, llm: string -> Reply, decode: string -> Option<Json>)
    returns (header: seq<string>, batchRows: seq<seq<Json>>)
    requires Distinct(columns) && Word1 in columns && Word2 in columns && RowsFit(columns, batch)
    ensures header == OutputColumns(columns)
    ensures batchRows == BatchRowsOf(columns, llm, decode)(batch)
  {
    var results := ProcessBatchQuestion(Questions(columns, batch), llm, decode);
    var frame := FillBatch(InputFrame(columns, batch), Items, results);
    BatchRowsIs(columns, llm, decode, batch, results);
    header, batchRows := frame.columns, frame.rows;
  }

  /** The loop `for item in ITEMS: batch_df[item] = [res.get(item, "") for res in batch_results]`, column by column. */
  method FillBatch(frame0: Frame, items: seq<string>, results: seq<Entries>) returns (frame: Frame)
    requires WellFormed(frame0) && |results| == |frame0.rows|
    ensures frame == WithItems(frame0, items, results)
  {
    frame := frame0;
    for i := 0 to |items|
      invariant WellFormed(frame) && |frame.rows| == |frame0.rows|
      invariant WithItems(frame, items[i..], results) == WithItems(frame0, items, results)
    {
      assert items[i..][1..] == items[i + 1..];
      frame := SetColumn(frame, items[i], ItemColumn(results, items[i]));
    }
  }

  lemma BatchRowsIs(columns: seq<string>, llm: string -> Reply, decode: string -> Option<Json>,
                    batch: seq<seq<string>>, results: seq<Entries>)
    requires Distinct(columns) && Word1 in columns && Word2 in columns && RowsFit(columns, batch)
    requires results == BatchResults(Questions(columns, batch), llm, decode)
    ensures BatchRowsOf(columns, llm, decode)(batch) == WithItems(InputFrame(columns, batch), Items, results).rows
  {
  }

}
